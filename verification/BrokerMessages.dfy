/** What each step of the broker says to each island, and so what every island
    hears in a whole run. */
module BrokerMessages {
  import opened Options
  import opened Brokers

  // ------------------------------------------------------------- one step at a time

  /** What an island says, in the broker's name for it, reaches the islands it is
      meant for, whatever its kind. */
  lemma MessagesArePassedOn(s: State, island: nat, raw: Raw, r: nat)
    requires Shape(s) && island < |s.records| && r < |s.records|
    requires raw.version == 1 && raw.kind != "" && raw.target != ""
    requires raw.kind != "READY" && raw.kind != "HTMX_SWAP"
    ensures var t := Take(s, Emits(island, raw));
      var e := Envelope(raw.kind, s.records[island].id, raw.target, raw.payload);
      && t == s.(tasks := t.tasks)
      && Log(t, r) == Log(s, r) + if RouteReaches(s, e, r) then [e] else []
  {
    var e := Envelope(raw.kind, s.records[island].id, raw.target, raw.payload);
    RouteLog(s, e, r);
    hide Route, RouteReaches, Log, Shape;
  }

  /** A malformed message, or one for the page itself, is told to nobody. */
  lemma OthersAreNotPassedOn(s: State, island: nat, raw: Raw)
    requires island < |s.records|
    requires raw.version != 1 || raw.kind == "" || raw.target == "" || raw.kind == "HTMX_SWAP"
    ensures Take(s, Emits(island, raw)) == s
  {
  }

  /** An island that says it is ready is greeted and told the last value of each
      event, in the order the events first came; it alone becomes ready. */
  lemma ReadyIsAnswered(s: State, island: nat, raw: Raw, r: nat)
    requires Shape(s) && island < |s.records| && r < |s.records|
    requires raw.version == 1 && raw.kind == "READY" && raw.target != ""
    ensures var t, id := Take(s, Emits(island, raw)), s.records[island].id;
      && t == s.(tasks := t.tasks, ready := t.ready)
      && (r in t.ready <==> r in s.ready || Get(s.apps, id) == Some(r))
      && Log(t, r) == Log(s, r) + if Reaches(s, id, r) then [Greeting(id)] + Replays(id, s.lastSSE) else []
  {
    var id := s.records[island].id;
    assert Take(s, Emits(island, raw)) == CompleteHandshake(s, id);
    hide Take, CompleteHandshake, Reaches, Log, Shape, Get, Replays, Greeting;
    HandshakeLog(s, id, r);
    assert r in CompleteHandshake(s, id).ready <==> r in s.ready || Get(s.apps, id) == Some(r);
  }

  /** What the greeting and the replays say. */
  lemma AnswersSpelt(id: string, last: seq<Entry<string>>)
    ensures Greeting(id) == Envelope("BROKER_READY", "broker", id, Other(id))
    ensures |Replays(id, last)| == |last| && forall k :: 0 <= k < |last| ==>
      Replays(id, last)[k] == Envelope("SSE_EVENT", "broker", id, Reading(last[k].key, last[k].value))
  {
  }

  /** A server event is recorded, and told to every mounted island. */
  lemma ArrivalsAreForwarded(s: State, name: string, data: string, r: nat)
    requires Shape(s) && r < |s.records|
    ensures var t := Take(s, Arrives(name, data));
      && t == s.(tasks := t.tasks, lastSSE := t.lastSSE)
      && (forall x :: Get(t.lastSSE, x) == if x == name then Some(data) else Get(s.lastSSE, x))
      && Log(t, r) == Log(s, r) + if Registered(s, r) && s.records[r].port
                                  then [Envelope("SSE_EVENT", "broker", "broadcast", Reading(name, data))] else []
  {
    var s1 := s.(lastSSE := Put(s.lastSSE, name, data));
    PutGets(s.lastSSE, name, data);
    BroadcastLog(s1, Sse("broadcast", name, data), None, r);
    assert Log(s1, r) == Log(s, r);
    hide Broadcast, Put, Log, Shape, Get;
  }

  /** When the page has been changed every mounted island is told so once. */
  lemma SwapsAreAnnounced(s: State, payload: Payload, r: nat)
    requires Shape(s) && r < |s.records|
    ensures var t := Take(s, Swapped(payload));
      && t == s.(tasks := t.tasks)
      && Log(t, r) == Log(s, r) + if Registered(s, r) && s.records[r].port
                                  then [Envelope("HTMX_AFTER_SWAP", "broker", "broadcast", payload)] else []
  {
    BroadcastLog(s, FromBroker("HTMX_AFTER_SWAP", "broadcast", payload), None, r);
    hide Broadcast, Log, Shape, Get;
  }

  /** A new node with a name becomes the island of that name, which has been told
      nothing; an island that had the name loses it. */
  lemma MountingRegisters(s: State, node: nat, id: string, port: bool)
    requires Shape(s)
    ensures var t := Take(s, Mounts(node, id, port));
      if node in s.nodes || id == "" then t == s
      else
        && t.records == s.records + [Record(id, port)] && t.nodes == s.nodes[node := id]
        && t.tasks == s.tasks && t.ready == s.ready && t.lastSSE == s.lastSSE
        && Registered(t, |s.records|) && Log(t, |s.records|) == []
        && forall r :: 0 <= r < |s.records| ==>
          Log(t, r) == Log(s, r) && (Registered(t, r) <==> Registered(s, r) && s.records[r].id != id)
  {
    PutGets(s.apps, id, |s.records|);
    NothingPending(s.tasks, |s.records|);
    hide Put, Get, KeysDiffer, PendingFor;
  }

  /** Nobody has the name of a node that is gone; everybody else keeps theirs. */
  lemma UnmountingForgets(s: State, node: nat)
    requires Shape(s)
    ensures var t := Take(s, Unmounts(node));
      if node !in s.nodes then t == s
      else
        && t == s.(apps := t.apps, nodes := s.nodes - {node})
        && Get(t.apps, s.nodes[node]) == None
        && forall r: nat :: Registered(t, r) <==> Registered(s, r) && s.records[r].id != s.nodes[node]
  {
    if node in s.nodes {
      RemoveGets(s.apps, s.nodes[node]);
    }
    hide Remove, Get, KeysDiffer;
  }

  /** A microtask takes the first message out of the queue to its island. */
  lemma RunningDelivers(s: State, r: nat)
    requires Shape(s) && s.tasks != [] && r < |s.records|
    ensures var t := Take(s, Runs);
      && t == s.(tasks := s.tasks[1..], delivered := t.delivered) && |t.delivered| == |s.delivered|
      && t.delivered[r] == s.delivered[r] + (if s.tasks[0].record == r then [s.tasks[0].message] else [])
      && Log(t, r) == Log(s, r)
  {
    RunKeepsLog(s, r);
    hide Log, KeysDiffer, Get;
  }

  // ------------------------------------------------------------- over every run

  /** What a step says to island r. */
  function Told(s: State, step: Step, r: nat): seq<Envelope> {
    if r >= |s.records| then []
    else
      match step
      case Emits(island, raw) =>
        if island >= |s.records| || raw.version != 1 || raw.kind == "" || raw.target == "" || raw.kind == "HTMX_SWAP"
        then []
        else
          var id := s.records[island].id;
          var e := Envelope(raw.kind, id, raw.target, raw.payload);
          if raw.kind != "READY" then (if RouteReaches(s, e, r) then [e] else [])
          else if Reaches(s, id, r) then [Greeting(id)] + Replays(id, s.lastSSE)
          else []
      case Arrives(name, data) =>
        if Registered(s, r) && s.records[r].port then [Sse("broadcast", name, data)] else []
      case Swapped(payload) =>
        if Registered(s, r) && s.records[r].port then [FromBroker("HTMX_AFTER_SWAP", "broadcast", payload)] else []
      case _ => []
  }

  /** What a run says to island r, in order. */
  function Heard(steps: seq<Step>, r: nat): seq<Envelope> {
    if |steps| == 0 then []
    else
      var before := steps[..|steps| - 1];
      Heard(before, r)
      + match After(before)
        case None => []
        case Some(s) => Told(s, steps[|steps| - 1], r)
  }

  lemma EmitTells(s: State, island: nat, raw: Raw, r: nat)
    requires Shape(s) && island < |s.records| && r < |s.records|
    ensures Log(Take(s, Emits(island, raw)), r) == Log(s, r) + Told(s, Emits(island, raw), r)
  {
    if raw.version != 1 || raw.kind == "" || raw.target == "" || raw.kind == "HTMX_SWAP" {
      OthersAreNotPassedOn(s, island, raw);
      Associates(Log(s, r));
    } else if raw.kind == "READY" {
      HandshakeLog(s, s.records[island].id, r);
    } else {
      MessagesArePassedOn(s, island, raw, r);
      hide Take;
    }
    hide CompleteHandshake, Reaches, RouteReaches, Log, Shape, Get;
  }

  lemma StepTells(s: State, step: Step, r: nat)
    requires Shape(s) && Enabled(s, step) && r < |Take(s, step).records|
    ensures r < |s.records| ==> Log(Take(s, step), r) == Log(s, r) + Told(s, step, r)
    ensures r >= |s.records| ==> Log(Take(s, step), r) == []
  {
    Associates(Log(s, r));
    match step {
      case Mounts(node, id, port) => MountingRegisters(s, node, id, port);
      case Unmounts(node) =>
        UnmountingForgets(s, node);
        assert Log(Take(s, step), r) == Log(s, r);
      case Emits(island, raw) =>
        HandleShape(s, s.records[island].id, raw);
        EmitTells(s, island, raw, r);
        hide HandleEvent, Told;
      case Arrives(name, data) => ForwardShape(s, name, data); ArrivalsAreForwarded(s, name, data, r); hide ForwardSSE;
      case Swapped(payload) =>
        SendToAllSends(s, Keys(s.apps), FromBroker("HTMX_AFTER_SWAP", "broadcast", payload), None);
        SwapsAreAnnounced(s, payload, r);
        hide Broadcast;
      case Runs => RunningDelivers(s, r);
    }
    hide Log, Shape, Get, Put, Remove, Registered;
  }

  /** Until an island is mounted the run says nothing to it. */
  lemma {:induction false} NothingHeard(steps: seq<Step>, r: nat)
    requires After(steps).Some? && r >= |After(steps).value.records|
    ensures Heard(steps, r) == []
    decreases |steps|
  {
    if |steps| > 0 {
      var before := steps[..|steps| - 1];
      var s := After(before).value;
      AlwaysShape(before);
      RecordsStay(s, steps[|steps| - 1]);
      hide Take, Shape, Enabled;
      NothingHeard(before, r);
    }
  }

  lemma RecordsStay(s: State, step: Step)
    requires Shape(s) && Enabled(s, step)
    ensures |s.records| <= |Take(s, step).records|
  {
    match step {
      case Mounts(node, id, port) =>
      case Unmounts(node) =>
      case Emits(island, raw) => HandleShape(s, s.records[island].id, raw); hide HandleEvent;
      case Arrives(name, data) => ForwardShape(s, name, data); hide ForwardSSE;
      case Swapped(payload) =>
        SendToAllSends(s, Keys(s.apps), FromBroker("HTMX_AFTER_SWAP", "broadcast", payload), None);
        hide Broadcast;
      case Runs =>
    }
    hide Shape, Get, Put, Remove;
  }

  /** What reached an island, followed by what is queued for it, is all that the
      steps of the run said to it, in the order they said it. */
  lemma {:induction false} HeardInOrder(steps: seq<Step>, r: nat)
    requires After(steps).Some? && r < |After(steps).value.records|
    ensures Log(After(steps).value, r) == Heard(steps, r)
    decreases |steps|
  {
    if |steps| > 0 {
      var before, step := steps[..|steps| - 1], steps[|steps| - 1];
      var s := After(before).value;
      AlwaysShape(before);
      StepTells(s, step, r);
      hide Take, Shape, Enabled, Log;
      if r < |s.records| {
        HeardInOrder(before, r);
      } else {
        NothingHeard(before, r);
        assert Told(s, step, r) == [];
      }
    } else {
      assert false;
    }
  }

  /** So with nothing queued every island has been told exactly that. */
  lemma NothingLostNorRepeated(steps: seq<Step>, s: State, r: nat)
    requires After(steps) == Some(s) && s.tasks == [] && r < |s.records|
    ensures r < |s.delivered| && s.delivered[r] == Heard(steps, r)
  {
    AlwaysShape(steps);
    HeardInOrder(steps, r);
    Associates(s.delivered[r]);
  }
}
