/** The page broker: it forwards server events to the islands that are mounted,
    and replays the last of each to an island that arrives late. */
module Brokers {
  import opened Options

  // ------------------------------------------------- insertion-ordered dictionaries

  datatype Entry<V> = Entry(key: string, value: V)

  function Get<V>(m: seq<Entry<V>>, k: string): Option<V> {
    if |m| == 0 then None else if m[0].key == k then Some(m[0].value) else Get(m[1..], k)
  }

  /** An old key keeps its place. */
  function Put<V>(m: seq<Entry<V>>, k: string, v: V): seq<Entry<V>> {
    if |m| == 0 then [Entry(k, v)]
    else if m[0].key == k then [Entry(k, v)] + m[1..]
    else [m[0]] + Put(m[1..], k, v)
  }

  function Remove<V>(m: seq<Entry<V>>, k: string): seq<Entry<V>> {
    if |m| == 0 then []
    else if m[0].key == k then m[1..]
    else [m[0]] + Remove(m[1..], k)
  }

  ghost predicate KeysDiffer<V>(m: seq<Entry<V>>) {
    forall i, j :: 0 <= i < j < |m| ==> m[i].key != m[j].key
  }

  lemma {:induction false} GetFinds<V>(m: seq<Entry<V>>, k: string)
    ensures Get(m, k).None? ==> forall i :: 0 <= i < |m| ==> m[i].key != k
    ensures Get(m, k).Some? ==> exists i :: 0 <= i < |m| && m[i] == Entry(k, Get(m, k).value)
  {
    if |m| > 0 && m[0].key != k {
      GetFinds(m[1..], k);
      if Get(m, k).Some? {
        var i :| 0 <= i < |m[1..]| && m[1..][i] == Entry(k, Get(m, k).value);
        assert m[i + 1] == m[1..][i];
      }
    }
  }

  lemma {:induction false} GetAt<V>(m: seq<Entry<V>>, i: nat)
    requires i < |m| && KeysDiffer(m)
    ensures Get(m, m[i].key) == Some(m[i].value)
  {
    if i > 0 {
      assert m[1..][i - 1] == m[i];
      GetAt(m[1..], i - 1);
    }
  }

  lemma {:induction false} PutGets<V>(m: seq<Entry<V>>, k: string, v: V)
    requires KeysDiffer(m)
    ensures KeysDiffer(Put(m, k, v))
    ensures forall x :: Get(Put(m, k, v), x) == if x == k then Some(v) else Get(m, x)
    ensures forall i :: 0 <= i < |Put(m, k, v)| ==> Put(m, k, v)[i].key == k || Put(m, k, v)[i] in m
  {
    if |m| > 0 {
      PutGets(m[1..], k, v);
      assert Put(m, k, v)[1..] == if m[0].key == k then m[1..] else Put(m[1..], k, v);
      forall i | 0 <= i < |Put(m[1..], k, v)| && m[0].key != k ensures Put(m[1..], k, v)[i].key != m[0].key {
        var e := Put(m[1..], k, v)[i];
        if e.key != k {
          var j :| 0 <= j < |m[1..]| && m[1..][j] == e;
          assert m[j + 1] == e;
        }
      }
    }
  }

  lemma {:induction false} RemoveGets<V>(m: seq<Entry<V>>, k: string)
    requires KeysDiffer(m)
    ensures KeysDiffer(Remove(m, k))
    ensures forall x :: Get(Remove(m, k), x) == if x == k then None else Get(m, x)
    ensures forall i :: 0 <= i < |Remove(m, k)| ==> Remove(m, k)[i] in m
  {
    if |m| > 0 {
      RemoveGets(m[1..], k);
      GetFinds(m[1..], k);
      if m[0].key != k {
        assert Remove(m, k)[1..] == Remove(m[1..], k);
        forall i | 0 <= i < |Remove(m[1..], k)| ensures Remove(m[1..], k)[i].key != m[0].key {
          var j :| 0 <= j < |m[1..]| && m[1..][j] == Remove(m[1..], k)[i];
          assert m[j + 1] == Remove(m[1..], k)[i];
        }
      }
    }
  }

  // ------------------------------------------------------------------ the protocol

  datatype Payload = Reading(event: string, data: string) | Other(text: string)

  datatype Envelope = Envelope(kind: string, source: string, target: string, payload: Payload)

  /** What an island hands to its outgoing port. */
  datatype Raw = Raw(version: int, kind: string, target: string, payload: Payload)

  /** One mounted island: the id it was mounted under, and whether its program has
      the port the broker sends to. */
  datatype Record = Record(id: string, port: bool)

  /** A queued microtask: a message for the island that had the id when it was
      queued. */
  datatype Task = Task(record: nat, message: Envelope)

  /** delivered lists what reached each island; ready holds the islands whose
      handshake the broker has answered. */
  datatype State = State(records: seq<Record>, apps: seq<Entry<nat>>, nodes: map<nat, string>,
                         lastSSE: seq<Entry<string>>, tasks: seq<Task>, delivered: seq<seq<Envelope>>, ready: set<nat>)

  const PROTOCOL_VERSION := 1

  function FromBroker(kind: string, target: string, payload: Payload): Envelope {
    Envelope(kind, "broker", target, payload)
  }

  function Sse(target: string, name: string, data: string): Envelope {
    FromBroker("SSE_EVENT", target, Reading(name, data))
  }

  function SendTo(s: State, id: string, e: Envelope): State {
    match Get(s.apps, id)
    case None => s
    case Some(r) => if r < |s.records| && s.records[r].port then s.(tasks := s.tasks + [Task(r, e)]) else s
  }

  function Keys<V>(m: seq<Entry<V>>): seq<string> { seq(|m|, i requires 0 <= i < |m| => m[i].key) }

  /** Send to each id but one. */
  function SendToAll(s: State, ids: seq<string>, e: Envelope, except: Option<string>): State
    decreases |ids|
  {
    if |ids| == 0 then s
    else
      var before := SendToAll(s, ids[..|ids| - 1], e, except);
      if except == Some(ids[|ids| - 1]) then before else SendTo(before, ids[|ids| - 1], e)
  }

  function Broadcast(s: State, e: Envelope, except: Option<string>): State { SendToAll(s, Keys(s.apps), e, except) }

  function Replay(s: State, id: string, last: seq<Entry<string>>): State
    decreases |last|
  {
    if |last| == 0 then s
    else
      var e := last[|last| - 1];
      SendTo(Replay(s, id, last[..|last| - 1]), id, Sse(id, e.key, e.value))
  }

  function Greeting(id: string): Envelope { FromBroker("BROKER_READY", id, Other(id)) }

  function CompleteHandshake(s: State, id: string): State {
    var t := Replay(SendTo(s, id, Greeting(id)), id, s.lastSSE);
    match Get(s.apps, id)
    case None => t
    case Some(r) => t.(ready := t.ready + {r})
  }

  function Route(s: State, e: Envelope): State {
    if e.target == "broker" then s
    else if e.target == "broadcast" then Broadcast(s, e, None)
    else if e.target == "others" then Broadcast(s, e, Some(e.source))
    else SendTo(s, e.target, e)
  }

  function Normalise(id: string, raw: Raw): Option<Envelope> {
    if raw.version != PROTOCOL_VERSION || raw.kind == "" || raw.target == "" then None
    else Some(Envelope(raw.kind, id, raw.target, raw.payload))
  }

  function HandleEvent(s: State, id: string, raw: Raw): State {
    match Normalise(id, raw)
    case None => s
    case Some(e) =>
      if e.kind == "READY" then CompleteHandshake(s, id)
      else if e.kind == "HTMX_SWAP" then s
      else Route(s, e)
  }

  function ForwardSSE(s: State, name: string, data: string): State {
    Broadcast(s.(lastSSE := Put(s.lastSSE, name, data)), Sse("broadcast", name, data), None)
  }

  function Mount(s: State, node: nat, id: string, port: bool): State {
    if node in s.nodes || id == "" then s
    else s.(records := s.records + [Record(id, port)], delivered := s.delivered + [[]],
            apps := Put(s.apps, id, |s.records|), nodes := s.nodes[node := id])
  }

  function Unmount(s: State, node: nat): State {
    if node !in s.nodes then s
    else s.(apps := Remove(s.apps, s.nodes[node]), nodes := s.nodes - {node})
  }

  function RunTask(s: State): State
    requires s.tasks != []
  {
    var task := s.tasks[0];
    if task.record < |s.delivered|
    then s.(tasks := s.tasks[1..],
            delivered := s.delivered[task.record := s.delivered[task.record] + [task.message]])
    else s.(tasks := s.tasks[1..])
  }

  datatype Step =
    | Mounts(node: nat, id: string, port: bool)
    | Unmounts(node: nat)
    | Emits(record: nat, raw: Raw)              // an island, mounted or not any more, says something
    | Arrives(name: string, data: string)       // a server event
    | Swapped(payload: Payload)                 // the page has been changed
    | Runs                                      // the first microtask runs

  predicate Enabled(s: State, step: Step) {
    match step
    case Emits(r, _) => r < |s.records|
    case Runs => s.tasks != []
    case _ => true
  }

  function Take(s: State, step: Step): State
    requires Enabled(s, step)
  {
    match step
    case Mounts(node, id, port) => Mount(s, node, id, port)
    case Unmounts(node) => Unmount(s, node)
    case Emits(r, raw) => HandleEvent(s, s.records[r].id, raw)
    case Arrives(name, data) => ForwardSSE(s, name, data)
    case Swapped(payload) => Broadcast(s, FromBroker("HTMX_AFTER_SWAP", "broadcast", payload), None)
    case Runs => RunTask(s)
  }

  function After(steps: seq<Step>): Option<State> {
    if |steps| == 0 then Some(State([], [], map[], [], [], [], {}))
    else
      match After(steps[..|steps| - 1])
      case None => None
      case Some(s) => if Enabled(s, steps[|steps| - 1]) then Some(Take(s, steps[|steps| - 1])) else None
  }

  // ------------------------------------------------------------ what islands know

  /** What an island makes of a message.  It goes by the kind alone, whoever sent
      the message, and reads a missing event as "" and missing data as null. */
  function Decoded(e: Envelope): Option<Entry<string>> {
    if e.kind != "SSE_EVENT" then None
    else
      match e.payload
      case Reading(event, data) => Some(Entry(event, data))
      case Other(_) => Some(Entry("", "null"))
  }

  predicate IsReading(e: Envelope, name: string) { Decoded(e).Some? && Decoded(e).value.key == name }

  /** The last value of an event that an island makes out in its messages. */
  function LastOf(log: seq<Envelope>, name: string): Option<string> {
    if |log| == 0 then None
    else
      var e := log[|log| - 1];
      if IsReading(e, name) then Some(Decoded(e).value.value) else LastOf(log[..|log| - 1], name)
  }

  function PendingFor(tasks: seq<Task>, r: nat): seq<Envelope> {
    if |tasks| == 0 then []
    else
      var last := tasks[|tasks| - 1];
      PendingFor(tasks[..|tasks| - 1], r) + if last.record == r then [last.message] else []
  }

  /** What reached an island, and what is on its way. */
  function Log(s: State, r: nat): seq<Envelope> {
    (if r < |s.delivered| then s.delivered[r] else []) + PendingFor(s.tasks, r)
  }

  predicate Registered(s: State, r: nat) {
    r < |s.records| && Get(s.apps, s.records[r].id) == Some(r)
  }

  ghost predicate Shape(s: State) {
    && |s.delivered| == |s.records|
    && KeysDiffer(s.apps) && KeysDiffer(s.lastSSE)
    && (forall i :: 0 <= i < |s.apps| ==>
          s.apps[i].value < |s.records| && s.records[s.apps[i].value].id == s.apps[i].key)
    && (forall i :: 0 <= i < |s.tasks| ==> s.tasks[i].record < |s.records|)
    && (forall r :: r in s.ready ==> r < |s.records|)
  }

  /** Of each event an island has nothing that did not come from the server; one
      that is ready has, or is about to have, the last that did. */
  ghost predicate Knows(s: State, r: nat, name: string) {
    && (LastOf(Log(s, r), name).Some? ==> Get(s.lastSSE, name).Some?)
    && (r in s.ready && Registered(s, r) && s.records[r].port ==> LastOf(Log(s, r), name) == Get(s.lastSSE, name))
  }

  ghost predicate AllKnow(s: State) { forall r, name :: 0 <= r < |s.records| ==> Knows(s, r, name) }

  ghost predicate Sound(s: State) { Shape(s) && AllKnow(s) }

  // -------------------------------------------------------- what each send adds

  predicate Reaches(s: State, id: string, r: nat) {
    r < |s.records| && Get(s.apps, id) == Some(r) && s.records[r].port
  }

  lemma ReachesByName(s: State, id: string, r: nat)
    requires Shape(s) && Reaches(s, id, r)
    ensures s.records[r].id == id
  {
    GetFinds(s.apps, id);
  }

  /** t is s with more messages on their way. */
  ghost predicate Sent(s: State, t: State) {
    t == s.(tasks := t.tasks) && (Shape(s) ==> Shape(t))
  }

  lemma SendToLog(s: State, id: string, e: Envelope, r: nat)
    requires Shape(s) && r < |s.records|
    ensures Sent(s, SendTo(s, id, e))
    ensures Log(SendTo(s, id, e), r) == Log(s, r) + if Reaches(s, id, r) then [e] else []
  {
    var t := SendTo(s, id, e);
    if t != s {
      assert t.tasks[..|t.tasks| - 1] == s.tasks;
    }
    hide KeysDiffer, Get;
  }

  lemma SentTwice(s: State, t: State, u: State, r: nat, id: string)
    requires Shape(s) && Sent(s, t) && Sent(t, u) && r < |s.records|
    ensures Sent(s, u) && Shape(t) && r < |t.records| && Reaches(t, id, r) == Reaches(s, id, r)
    ensures Reaches(s, id, r) ==> s.records[r].id == id
  {
    hide Shape, Get;
    if Reaches(s, id, r) {
      ReachesByName(s, id, r);
    }
  }

  ghost predicate AllDiffer(ids: seq<string>) {
    forall i, j :: 0 <= i < j < |ids| ==> ids[i] != ids[j]
  }

  lemma FrontDiffers(ids: seq<string>)
    requires AllDiffer(ids) && |ids| > 0
    ensures AllDiffer(ids[..|ids| - 1]) && ids[|ids| - 1] !in ids[..|ids| - 1]
    ensures forall id :: id in ids <==> id in ids[..|ids| - 1] || id == ids[|ids| - 1]
  {
    assert ids == ids[..|ids| - 1] + [ids[|ids| - 1]];
  }

  lemma {:induction false} SendToAllLog(s: State, ids: seq<string>, e: Envelope, except: Option<string>, r: nat)
    requires Shape(s) && r < |s.records|
    requires AllDiffer(ids)
    ensures Sent(s, SendToAll(s, ids, e, except))
    ensures var id := s.records[r].id;
      Log(SendToAll(s, ids, e, except), r)
      == Log(s, r) + if id in ids && except != Some(id) && Reaches(s, id, r) then [e] else []
    decreases |ids|
  {
    if |ids| > 0 {
      var front, id := ids[..|ids| - 1], ids[|ids| - 1];
      var t := SendToAll(s, front, e, except);
      FrontDiffers(ids);
      hide Log, SendTo, Shape, Get, Sent, Reaches, AllDiffer;
      SendToAllLog(s, front, e, except, r);
      SendToLog(t, id, e, r);
      SentTwice(s, t, SendTo(t, id, e), r, id);
    }
  }

  lemma BroadcastLog(s: State, e: Envelope, except: Option<string>, r: nat)
    requires Shape(s) && r < |s.records|
    ensures Sent(s, Broadcast(s, e, except))
    ensures Log(Broadcast(s, e, except), r)
         == Log(s, r) + if Registered(s, r) && s.records[r].port && except != Some(s.records[r].id) then [e] else []
  {
    var ids := Keys(s.apps);
    SendToAllLog(s, ids, e, except, r);
    if Registered(s, r) {
      GetFinds(s.apps, s.records[r].id);
      var i :| 0 <= i < |s.apps| && s.apps[i] == Entry(s.records[r].id, r);
      assert ids[i] == s.records[r].id;
    }
    hide Log, SendToAll;
  }

  function Replays(id: string, last: seq<Entry<string>>): seq<Envelope> {
    seq(|last|, i requires 0 <= i < |last| => Sse(id, last[i].key, last[i].value))
  }

  lemma {:induction false} ReplayLog(s: State, id: string, last: seq<Entry<string>>, r: nat)
    requires Shape(s) && r < |s.records|
    ensures Sent(s, Replay(s, id, last))
    ensures Log(Replay(s, id, last), r) == Log(s, r) + if Reaches(s, id, r) then Replays(id, last) else []
    decreases |last|
  {
    if |last| > 0 {
      var front, e := last[..|last| - 1], last[|last| - 1];
      ReplayLog(s, id, front, r);
      SendToLog(Replay(s, id, front), id, Sse(id, e.key, e.value), r);
      assert Replays(id, last) == Replays(id, front) + [Sse(id, e.key, e.value)];
      hide Log, SendTo, Shape, Replays;
    }
  }

  lemma ReadyKeeps(s: State, r: nat)
    requires Shape(s) && r < |s.records|
    ensures Shape(s.(ready := s.ready + {r}))
    ensures forall i :: 0 <= i < |s.records| ==> Log(s.(ready := s.ready + {r}), i) == Log(s, i)
  {
    hide KeysDiffer;
  }

  lemma RegisteredExists(s: State, id: string)
    requires Shape(s) && Get(s.apps, id).Some?
    ensures Get(s.apps, id).value < |s.records|
  {
    GetFinds(s.apps, id);
  }

  lemma HandshakeLog(s: State, id: string, r: nat)
    requires Shape(s) && r < |s.records|
    ensures var t := CompleteHandshake(s, id);
      && t == s.(tasks := t.tasks, ready := t.ready) && Shape(t)
      && t.ready == s.ready + (if Get(s.apps, id).Some? then {Get(s.apps, id).value} else {})
      && Log(t, r) == Log(s, r) + if Reaches(s, id, r) then [Greeting(id)] + Replays(id, s.lastSSE) else []
  {
    var m := SendTo(s, id, Greeting(id));
    var u := Replay(m, id, s.lastSSE);
    hide Log, SendTo, Replay, Replays, Shape, Get, Greeting;
    SendToLog(s, id, Greeting(id), r);
    ReplayLog(m, id, s.lastSSE, r);
    if Get(s.apps, id).Some? {
      RegisteredExists(s, id);
      ReadyKeeps(u, Get(s.apps, id).value);
    }
    assert Log(s, r) + [Greeting(id)] + Replays(id, s.lastSSE) == Log(s, r) + ([Greeting(id)] + Replays(id, s.lastSSE));
  }

  // ---------------------------------------------------- what that tells an island

  lemma LastOfNext(log: seq<Envelope>, e: Envelope, name: string)
    ensures LastOf(log + [e], name)
         == if IsReading(e, name) then Some(Decoded(e).value.value) else LastOf(log, name)
  {
    assert (log + [e])[..|log|] == log;
  }

  lemma {:induction false} GetLast<V>(m: seq<Entry<V>>, x: string)
    requires |m| > 0 && KeysDiffer(m)
    ensures Get(m, x) == if m[|m| - 1].key == x then Some(m[|m| - 1].value) else Get(m[..|m| - 1], x)
  {
    if |m| > 1 {
      GetLast(m[1..], x);
      assert m[1..][..|m| - 2] == m[..|m| - 1][1..];
      assert m[0].key != m[|m| - 1].key;
    }
  }

  lemma {:induction false} LastOfReplays(log: seq<Envelope>, id: string, last: seq<Entry<string>>, name: string)
    requires KeysDiffer(last)
    ensures LastOf(log + Replays(id, last), name)
         == if Get(last, name).Some? then Get(last, name) else LastOf(log, name)
    decreases |last|
  {
    if |last| == 0 {
      assert log + Replays(id, last) == log;
    } else {
      var front, e := last[..|last| - 1], last[|last| - 1];
      LastOfReplays(log, id, front, name);
      GetLast(last, name);
      LastOfNext(log + Replays(id, front), Sse(id, e.key, e.value), name);
      assert log + Replays(id, last) == log + Replays(id, front) + [Sse(id, e.key, e.value)];
      hide LastOf, Get, Replays;
    }
  }

  // ----------------------------------------------------------- one step at a time

  lemma Associates(log: seq<Envelope>)
    ensures log + [] == log
  {
  }

  lemma SentItself(s: State)
    ensures Sent(s, s)
  {
  }

  /** The islands a message is routed to. */
  predicate RouteReaches(s: State, e: Envelope, r: nat) {
    && r < |s.records| && s.records[r].port && e.target != "broker"
    && if e.target == "broadcast" then Registered(s, r)
       else if e.target == "others" then Registered(s, r) && s.records[r].id != e.source
       else Get(s.apps, e.target) == Some(r)
  }

  lemma RouteLog(s: State, e: Envelope, r: nat)
    requires Shape(s) && r < |s.records|
    ensures Sent(s, Route(s, e))
    ensures Log(Route(s, e), r) == Log(s, r) + if RouteReaches(s, e, r) then [e] else []
    ensures RouteReaches(s, e, r) ==> Registered(s, r)
  {
    if RouteReaches(s, e, r) && Get(s.apps, e.target) == Some(r) {
      ReachesByName(s, e.target, r);
    }
    hide Shape, Log, Broadcast, SendTo, Get;
    BroadcastLog(s, e, None, r);
    BroadcastLog(s, e, Some(e.source), r);
    SendToLog(s, e.target, e, r);
    Associates(Log(s, r));
    SentItself(s);
  }

  /** A message that would tell an island what the server did not last send. */
  predicate Misleads(s: State, e: Envelope, r: nat) {
    && RouteReaches(s, e, r) && Decoded(e).Some?
    && var d := Decoded(e).value;
      Get(s.lastSSE, d.key).None? || (r in s.ready && Get(s.lastSSE, d.key) != Some(d.value))
  }

  /** Routing a message leaves an island right about every event if and only if
      the message does not mislead it. */
  lemma KnowsAfterRoute(s: State, e: Envelope, r: nat)
    requires Shape(s) && r < |s.records| && forall name :: Knows(s, r, name)
    ensures (forall name :: Knows(Route(s, e), r, name)) <==> !Misleads(s, e, r)
  {
    RouteLog(s, e, r);
    var t := Route(s, e);
    Associates(Log(s, r));
    forall name ensures LastOf(Log(t, r), name)
      == if RouteReaches(s, e, r) && IsReading(e, name) then Some(Decoded(e).value.value) else LastOf(Log(s, r), name)
    {
      LastOfNext(Log(s, r), e, name);
    }
    hide Shape, Log, Route, RouteReaches, LastOf, Get;
    if Misleads(s, e, r) {
      assert !Knows(t, r, Decoded(e).value.key);
    } else {
      forall name ensures Knows(t, r, name) {
        assert Knows(s, r, name);
      }
    }
  }

  /** A message that no island reads a value from changes nothing. */
  lemma KnowsAfterBroadcast(s: State, e: Envelope, except: Option<string>, r: nat, name: string)
    requires Shape(s) && Knows(s, r, name) && r < |s.records| && Decoded(e).None?
    ensures Knows(Broadcast(s, e, except), r, name)
  {
    BroadcastLog(s, e, except, r);
    LastOfNext(Log(s, r), e, name);
    Associates(Log(s, r));
    hide Shape, Log, Broadcast, LastOf, Get;
  }

  lemma KnowsAfterHandshake(s: State, id: string, r: nat, name: string)
    requires Shape(s) && Knows(s, r, name) && r < |s.records|
    ensures Knows(CompleteHandshake(s, id), r, name)
  {
    HandshakeLog(s, id, r);
    var t, log := CompleteHandshake(s, id), Log(s, r);
    LastOfNext(log, Greeting(id), name);
    LastOfReplays(log + [Greeting(id)], id, s.lastSSE, name);
    assert log + [Greeting(id)] + Replays(id, s.lastSSE) == log + ([Greeting(id)] + Replays(id, s.lastSSE));
    Associates(log);
    if Reaches(s, id, r) {
      ReachesByName(s, id, r);
    }
    if Registered(s, r) && r in t.ready && r !in s.ready {
      assert Get(s.apps, id) == Some(r);
    }
    hide Log, Get, LastOf, Replays, CompleteHandshake, Shape;
  }

  lemma KnowsAfterArrival(s: State, name: string, data: string, r: nat, other: string)
    requires Shape(s) && Knows(s, r, other) && r < |s.records|
    ensures Knows(ForwardSSE(s, name, data), r, other)
  {
    var s1 := s.(lastSSE := Put(s.lastSSE, name, data));
    var e := Sse("broadcast", name, data);
    PutGets(s.lastSSE, name, data);
    assert Shape(s1) && Log(s1, r) == Log(s, r);
    BroadcastLog(s1, e, None, r);
    LastOfNext(Log(s, r), e, other);
    Associates(Log(s, r));
    hide Log, Get, LastOf, Put, Shape, Broadcast;
  }

  lemma {:induction false} PendingHead(tasks: seq<Task>, r: nat)
    requires |tasks| > 0
    ensures PendingFor(tasks, r)
         == (if tasks[0].record == r then [tasks[0].message] else []) + PendingFor(tasks[1..], r)
    decreases |tasks|
  {
    if |tasks| > 1 {
      PendingHead(tasks[..|tasks| - 1], r);
      assert tasks[..|tasks| - 1][1..] == tasks[1..][..|tasks| - 2];
    }
  }

  lemma RunKeepsLog(s: State, r: nat)
    requires Shape(s) && s.tasks != [] && r < |s.records|
    ensures Log(RunTask(s), r) == Log(s, r)
  {
    PendingHead(s.tasks, r);
    hide PendingFor, KeysDiffer;
  }

  lemma {:induction false} NothingPending(tasks: seq<Task>, r: nat)
    requires forall i :: 0 <= i < |tasks| ==> tasks[i].record < r
    ensures PendingFor(tasks, r) == []
    decreases |tasks|
  {
    if |tasks| > 0 {
      NothingPending(tasks[..|tasks| - 1], r);
    }
  }

  lemma KnowsAfterMount(s: State, node: nat, id: string, port: bool, r: nat, name: string)
    requires Shape(s) && r < |Mount(s, node, id, port).records| && (r < |s.records| ==> Knows(s, r, name))
    ensures Knows(Mount(s, node, id, port), r, name)
  {
    var t := Mount(s, node, id, port);
    PutGets(s.apps, id, |s.records|);
    if r < |s.records| {
      assert Log(t, r) == Log(s, r);
    } else {
      NothingPending(s.tasks, r);
      assert Log(t, r) == [];
    }
    hide Log, Get, Put, KeysDiffer;
  }

  lemma KnowsAfterUnmount(s: State, node: nat, r: nat, name: string)
    requires Shape(s) && r < |s.records| && Knows(s, r, name)
    ensures Knows(Unmount(s, node), r, name)
  {
    if node in s.nodes {
      RemoveGets(s.apps, s.nodes[node]);
      assert Log(Unmount(s, node), r) == Log(s, r);
    }
    hide Log, Get, Remove, KeysDiffer, LastOf;
  }

  lemma SentTransitive(s: State, t: State, u: State)
    requires Sent(s, t) && Sent(t, u)
    ensures Sent(s, u)
  {
    hide Shape;
  }

  lemma SendToSends(s: State, id: string, e: Envelope)
    ensures Sent(s, SendTo(s, id, e))
  {
  }

  lemma {:induction false} SendToAllSends(s: State, ids: seq<string>, e: Envelope, except: Option<string>)
    ensures Sent(s, SendToAll(s, ids, e, except))
    decreases |ids|
  {
    hide Sent, SendTo, Shape;
    if |ids| == 0 {
      SentItself(s);
    } else {
      var before := SendToAll(s, ids[..|ids| - 1], e, except);
      SendToAllSends(s, ids[..|ids| - 1], e, except);
      SendToSends(before, ids[|ids| - 1], e);
      SentTransitive(s, before, SendTo(before, ids[|ids| - 1], e));
    }
  }

  lemma {:induction false} ReplaySends(s: State, id: string, last: seq<Entry<string>>)
    ensures Sent(s, Replay(s, id, last))
    decreases |last|
  {
    hide Sent, SendTo, Shape;
    if |last| == 0 {
      SentItself(s);
    } else {
      var e := last[|last| - 1];
      var before := Replay(s, id, last[..|last| - 1]);
      ReplaySends(s, id, last[..|last| - 1]);
      SendToSends(before, id, Sse(id, e.key, e.value));
      SentTransitive(s, before, SendTo(before, id, Sse(id, e.key, e.value)));
    }
  }

  lemma HandshakeShape(s: State, id: string)
    requires Shape(s)
    ensures var t := CompleteHandshake(s, id); t == s.(tasks := t.tasks, ready := t.ready) && Shape(t)
  {
    var m := SendTo(s, id, Greeting(id));
    var u := Replay(m, id, s.lastSSE);
    SendToSends(s, id, Greeting(id));
    ReplaySends(m, id, s.lastSSE);
    hide SendTo, Replay, Shape, Get;
    if Get(s.apps, id).Some? {
      RegisteredExists(s, id);
      ReadyKeeps(u, Get(s.apps, id).value);
    }
  }

  /** What an event from an island leaves alone. */
  lemma HandleShape(s: State, id: string, raw: Raw)
    requires Shape(s)
    ensures var t := HandleEvent(s, id, raw);
      t == s.(tasks := t.tasks, ready := t.ready) && Shape(t)
  {
    var e := Envelope(raw.kind, id, raw.target, raw.payload);
    HandshakeShape(s, id);
    SendToAllSends(s, Keys(s.apps), e, None);
    SendToAllSends(s, Keys(s.apps), e, Some(e.source));
    SendToSends(s, e.target, e);
    hide Shape, SendTo, SendToAll, CompleteHandshake;
  }

  lemma MountShape(s: State, node: nat, id: string, port: bool)
    requires Shape(s)
    ensures Shape(Mount(s, node, id, port))
  {
    PutGets(s.apps, id, |s.records|);
    if node !in s.nodes && id != "" {
      var apps := Put(s.apps, id, |s.records|);
      forall i | 0 <= i < |apps| ensures apps[i] == Entry(id, |s.records|) || apps[i] in s.apps {
        GetAt(apps, i);
      }
    }
    hide Put, KeysDiffer, Get;
  }

  lemma UnmountShape(s: State, node: nat)
    requires Shape(s)
    ensures Shape(Unmount(s, node))
  {
    if node in s.nodes {
      RemoveGets(s.apps, s.nodes[node]);
    }
    hide Remove, KeysDiffer, Get;
  }

  lemma ForwardShape(s: State, name: string, data: string)
    requires Shape(s)
    ensures Shape(ForwardSSE(s, name, data))
    ensures ForwardSSE(s, name, data).lastSSE == Put(s.lastSSE, name, data)
    ensures ForwardSSE(s, name, data).records == s.records
  {
    PutGets(s.lastSSE, name, data);
    var s1 := s.(lastSSE := Put(s.lastSSE, name, data));
    SendToAllSends(s1, Keys(s1.apps), Sse("broadcast", name, data), None);
    hide Put, SendToAll;
  }

  lemma StepKeepsShape(s: State, step: Step)
    requires Shape(s) && Enabled(s, step)
    ensures Shape(Take(s, step))
    ensures Take(s, step).lastSSE == if step.Arrives? then Put(s.lastSSE, step.name, step.data) else s.lastSSE
  {
    match step {
      case Mounts(node, id, port) => MountShape(s, node, id, port); hide Put;
      case Unmounts(node) => UnmountShape(s, node);
      case Emits(r, raw) => HandleShape(s, s.records[r].id, raw); hide HandleEvent;
      case Arrives(name, data) => ForwardShape(s, name, data); hide ForwardSSE;
      case Swapped(payload) =>
        SendToAllSends(s, Keys(s.apps), FromBroker("HTMX_AFTER_SWAP", "broadcast", payload), None);
        hide SendToAll;
      case Runs => hide KeysDiffer;
    }
  }

  /** Only islands can make one another wrong. */
  lemma OthersKeepKnowing(s: State, step: Step, r: nat, name: string)
    requires Sound(s) && Enabled(s, step) && !step.Emits? && r < |Take(s, step).records|
    ensures Knows(Take(s, step), r, name)
  {
    if r < |s.records| {
      assert Knows(s, r, name);
    }
    match step {
      case Mounts(node, id, port) =>
        KnowsAfterMount(s, node, id, port, r, name);
      case Unmounts(node) =>
        KnowsAfterUnmount(s, node, r, name);
      case Arrives(event, data) =>
        ForwardShape(s, event, data);
        hide Knows, ForwardSSE;
        KnowsAfterArrival(s, event, data, r, name);
      case Swapped(payload) =>
        var e := FromBroker("HTMX_AFTER_SWAP", "broadcast", payload);
        SendToAllSends(s, Keys(s.apps), e, None);
        hide Knows, SendToAll;
        KnowsAfterBroadcast(s, e, None, r, name);
      case Runs =>
        RunKeepsLog(s, r);
        hide Log;
    }
  }

  /** An island says something that the broker passes on and that misleads some
      island it reaches. */
  ghost predicate Misinforms(s: State, step: Step) {
    && step.Emits? && step.record < |s.records|
    && var e := Normalise(s.records[step.record].id, step.raw);
      e.Some? && exists r :: 0 <= r < |s.records| && Misleads(s, e.value, r)
  }

  lemma EmitKeepsKnowing(s: State, island: nat, raw: Raw)
    requires Sound(s) && island < |s.records|
    ensures AllKnow(HandleEvent(s, s.records[island].id, raw)) <==> !Misinforms(s, Emits(island, raw))
  {
    var id := s.records[island].id;
    var t := HandleEvent(s, id, raw);
    HandleShape(s, id, raw);
    match Normalise(id, raw) {
      case None =>
      case Some(e) =>
        assert e.kind != "SSE_EVENT" ==> Decoded(e).None?;
        assert e.kind == "READY" || e.kind == "HTMX_SWAP" ==> !Misinforms(s, Emits(island, raw));
        hide Shape, Knows, CompleteHandshake, Route, Misleads, Decoded;
        if e.kind == "READY" {
          forall r, name | 0 <= r < |t.records| ensures Knows(t, r, name) {
            KnowsAfterHandshake(s, id, r, name);
          }
        } else if e.kind != "HTMX_SWAP" {
          assert t == Route(s, e);
          if AllKnow(t) {
            forall r | 0 <= r < |s.records| ensures !Misleads(s, e, r) {
              KnowsAfterRoute(s, e, r);
            }
          } else {
            var r, name :| 0 <= r < |t.records| && !Knows(t, r, name);
            KnowsAfterRoute(s, e, r);
            assert Misleads(s, e, r);
          }
        }
    }
  }

  /** From a sound state a step leaves every island right if and only if it does
      not misinform one. */
  lemma StepKeepsKnowing(s: State, step: Step)
    requires Sound(s) && Enabled(s, step)
    ensures AllKnow(Take(s, step)) <==> !Misinforms(s, step)
  {
    if step.Emits? {
      EmitKeepsKnowing(s, step.record, step.raw);
      hide HandleEvent, AllKnow, Misinforms, Shape;
    } else {
      hide Take, Knows, Shape;
      forall r, name | 0 <= r < |Take(s, step).records| ensures Knows(Take(s, step), r, name) {
        OthersKeepKnowing(s, step, r, name);
      }
    }
  }

  // -------------------------------------------------------------- over every run

  lemma {:induction false} AlwaysShape(steps: seq<Step>)
    requires After(steps).Some?
    ensures Shape(After(steps).value)
    decreases |steps|
  {
    if |steps| > 0 {
      var before := steps[..|steps| - 1];
      AlwaysShape(before);
      hide Take, Shape, Enabled;
      StepKeepsShape(After(before).value, steps[|steps| - 1]);
    }
  }

  /** No step of a run misinforms an island. */
  ghost predicate Harmless(steps: seq<Step>) {
    |steps| == 0 || (
      var before := steps[..|steps| - 1];
      Harmless(before) && (After(before).Some? ==> !Misinforms(After(before).value, steps[|steps| - 1])))
  }

  /** Every island is right in every state of a run. */
  ghost predicate AlwaysKnow(steps: seq<Step>) {
    After(steps).Some? && AllKnow(After(steps).value) && (|steps| > 0 ==> AlwaysKnow(steps[..|steps| - 1]))
  }

  /** The exact condition: throughout a run all islands are right about all
      events if and only if no island's message misinforms one. */
  lemma {:induction false} AlwaysKnowIffHarmless(steps: seq<Step>)
    requires After(steps).Some?
    ensures AlwaysKnow(steps) <==> Harmless(steps)
    decreases |steps|
  {
    if |steps| > 0 {
      var before := steps[..|steps| - 1];
      AlwaysKnowIffHarmless(before);
      AlwaysShape(before);
      if AlwaysKnow(before) {
        StepKeepsKnowing(After(before).value, steps[|steps| - 1]);
      }
      hide Take, Shape, AllKnow, Enabled, Misinforms;
    }
  }

  /** No island sends what only the broker is meant to send. */
  predicate Honest(steps: seq<Step>) {
    forall i :: 0 <= i < |steps| && steps[i].Emits? ==> steps[i].raw.kind != "SSE_EVENT"
  }

  lemma {:induction false} HonestIsHarmless(steps: seq<Step>)
    requires Honest(steps)
    ensures Harmless(steps)
    decreases |steps|
  {
    if |steps| > 0 {
      HonestIsHarmless(steps[..|steps| - 1]);
      assert steps[|steps| - 1].Emits? ==> steps[|steps| - 1].raw.kind != "SSE_EVENT";
      hide After, RouteReaches, Get;
    }
  }

  /** The last value the server sent of an event. */
  function LastArrival(steps: seq<Step>, name: string): Option<string> {
    if |steps| == 0 then None
    else
      var last := steps[|steps| - 1];
      if last.Arrives? && last.name == name then Some(last.data) else LastArrival(steps[..|steps| - 1], name)
  }

  lemma {:induction false} KeepsLastArrival(steps: seq<Step>, name: string)
    requires After(steps).Some?
    ensures Get(After(steps).value.lastSSE, name) == LastArrival(steps, name)
    decreases |steps|
  {
    if |steps| > 0 {
      var before, step := steps[..|steps| - 1], steps[|steps| - 1];
      KeepsLastArrival(before, name);
      AlwaysShape(before);
      var s := After(before).value;
      StepKeepsShape(s, step);
      if step.Arrives? {
        PutGets(s.lastSSE, step.name, step.data);
      }
      hide Take, Shape, Enabled, Put, KeysDiffer;
    }
  }

  /** Once no microtask is queued, every mounted island that is ready makes out,
      last of each event, the last value the server sent of it, whenever it was
      mounted; so long as no island's own message misinformed one. */
  lemma LateIslandsCatchUp(steps: seq<Step>, s: State, r: nat, name: string)
    requires After(steps) == Some(s) && Harmless(steps) && s.tasks == []
    requires r in s.ready && Registered(s, r) && s.records[r].port
    ensures r < |s.delivered| && LastOf(s.delivered[r], name) == LastArrival(steps, name)
  {
    AlwaysShape(steps);
    AlwaysKnowIffHarmless(steps);
    KeepsLastArrival(steps, name);
    assert Knows(s, r, name);
    Associates(s.delivered[r]);
  }

  /** So all such islands agree. */
  lemma IslandsAgree(steps: seq<Step>, s: State, a: nat, b: nat, name: string)
    requires After(steps) == Some(s) && Harmless(steps) && s.tasks == []
    requires a in s.ready && Registered(s, a) && s.records[a].port
    requires b in s.ready && Registered(s, b) && s.records[b].port
    ensures a < |s.delivered| && b < |s.delivered| && LastOf(s.delivered[a], name) == LastOf(s.delivered[b], name)
  {
    LateIslandsCatchUp(steps, s, a, name);
    LateIslandsCatchUp(steps, s, b, name);
  }

  lemma AfterOne(steps: seq<Step>, step: Step, s: State)
    requires After(steps) == Some(s) && Enabled(s, step)
    ensures After(steps + [step]) == Some(Take(s, step))
  {
    assert (steps + [step])[..|steps|] == steps;
    hide Take, Enabled;
  }

  /** With the microtasks all run, an island that is ready was last told
      something other than what the server last sent. */
  ghost predicate Misled(steps: seq<Step>, s: State, r: nat, name: string) {
    && After(steps) == Some(s) && s.tasks == []
    && r in s.ready && Registered(s, r) && s.records[r].port && r < |s.delivered|
    && LastOf(s.delivered[r], name) != LastArrival(steps, name)
  }

  const GREETING := Greeting("a")
  const FORGED := Envelope("SSE_EVENT", "b", "a", Reading("x", "1"))
  const MOUNTS := [Mounts(0, "a", true), Mounts(1, "b", true)]
  const SAYS := [
    Emits(0, Raw(1, "READY", "broker", Other(""))),
    Emits(1, Raw(1, "SSE_EVENT", "a", Reading("x", "1")))
  ]

  function TwoIslands(tasks: seq<Task>, delivered: seq<Envelope>, ready: set<nat>): State {
    State([Record("a", true), Record("b", true)], [Entry("a", 0), Entry("b", 1)], map[0 := "a", 1 := "b"],
          [], tasks, [delivered, []], ready)
  }

  lemma TwoMount()
    ensures After(MOUNTS) == Some(TwoIslands([], [], {}))
  {
    var s0 := State([], [], map[], [], [], [], {});
    var s1 := State([Record("a", true)], [Entry("a", 0)], map[0 := "a"], [], [], [[]], {});
    AfterOne([], MOUNTS[0], s0);
    assert Take(s0, MOUNTS[0]) == s1;
    AfterOne([] + [MOUNTS[0]], MOUNTS[1], s1);
    assert Put([Entry("a", 0)], "b", 1) == [Entry("a", 0), Entry("b", 1)] by {
      assert Put([Entry("a", 0)][1..], "b", 1) == [Entry("b", 1)];
    }
    assert Take(s1, MOUNTS[1]) == TwoIslands([], [], {}) by {
      assert s1.nodes[1 := "b"] == map[0 := "a", 1 := "b"];
    }
    assert [] + [MOUNTS[0]] + [MOUNTS[1]] == MOUNTS;
  }

  lemma TwoSpeak()
    ensures After(MOUNTS + SAYS) == Some(TwoIslands([Task(0, GREETING), Task(0, FORGED)], [], {0}))
  {
    TwoMount();
    var s2, s3 := TwoIslands([], [], {}), TwoIslands([Task(0, GREETING)], [], {0});
    assert Get(s2.apps, "a") == Some(0);
    AfterOne(MOUNTS, SAYS[0], s2);
    assert Take(s2, SAYS[0]) == s3;
    AfterOne(MOUNTS + [SAYS[0]], SAYS[1], s3);
    assert Take(s3, SAYS[1]) == TwoIslands([Task(0, GREETING), Task(0, FORGED)], [], {0});
    assert MOUNTS + [SAYS[0]] + [SAYS[1]] == MOUNTS + SAYS;
  }

  /** The condition is needed: what an island sends as an event is taken for one
      the server sent. */
  lemma IslandsCanMislead()
    ensures exists steps, s :: Misled(steps, s, 0, "x")
  {
    TwoSpeak();
    var s4 := TwoIslands([Task(0, GREETING), Task(0, FORGED)], [], {0});
    var s5 := TwoIslands([Task(0, FORGED)], [GREETING], {0});
    var s6 := TwoIslands([], [GREETING, FORGED], {0});
    AfterOne(MOUNTS + SAYS, Runs, s4);
    assert [] + [GREETING] == [GREETING] && [GREETING] + [FORGED] == [GREETING, FORGED];
    assert s4.delivered[0 := s4.delivered[0] + [GREETING]] == s5.delivered && s4.tasks[1..] == s5.tasks;
    AfterOne(MOUNTS + SAYS + [Runs], Runs, s5);
    assert s5.delivered[0 := s5.delivered[0] + [FORGED]] == s6.delivered && s5.tasks[1..] == s6.tasks;
    var steps := MOUNTS + SAYS + [Runs] + [Runs];
    NoArrivals(steps, "x");
    assert LastOf([GREETING, FORGED], "x") == Some("1");
    assert Misled(steps, s6, 0, "x");
  }

  lemma {:induction false} NoArrivals(steps: seq<Step>, name: string)
    requires forall i :: 0 <= i < |steps| ==> !steps[i].Arrives?
    ensures LastArrival(steps, name) == None
    decreases |steps|
  {
    if |steps| > 0 {
      NoArrivals(steps[..|steps| - 1], name);
    }
  }
}
