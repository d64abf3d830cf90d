/** The broker as the page holds it: fields that its methods update. */
module BrokerObjects {
  import opened Options
  import opened Brokers

  class Broker {
    var records: seq<Record>
    var apps: seq<Entry<nat>>
    var nodes: map<nat, string>
    var lastSSE: seq<Entry<string>>
    var tasks: seq<Task>
    var delivered: seq<seq<Envelope>>
    ghost var ready: set<nat>
    ghost var steps: seq<Step>

    ghost function View(): State
      reads this
    {
      State(records, apps, nodes, lastSSE, tasks, delivered, ready)
    }

    /** The fields are where the steps so far have led. */
    ghost predicate Valid()
      reads this
    {
      After(steps) == Some(View())
    }

    constructor ()
      ensures Valid() && steps == []
    {
      records, apps, nodes, lastSSE, tasks, delivered, ready, steps := [], [], map[], [], [], [], {}, [];
    }

    ghost method Remember(step: Step, before: State)
      requires After(steps) == Some(before) && Enabled(before, step) && View() == Take(before, step)
      modifies this`steps
      ensures Valid() && steps == old(steps) + [step]
    {
      assert (steps + [step])[..|steps|] == steps;
      steps := steps + [step];
      hide Take, Enabled;
    }

    method Send(id: string, e: Envelope)
      modifies this`tasks
      ensures View() == SendTo(old(View()), id, e)
    {
      match Get(apps, id) {
        case None =>
        case Some(r) =>
          if r < |records| && records[r].port {
            tasks := tasks + [Task(r, e)];
          }
      }
    }

    method Broadcast(e: Envelope, except: Option<string>)
      modifies this`tasks
      ensures View() == Brokers.Broadcast(old(View()), e, except)
    {
      var ids := Keys(apps);
      for i := 0 to |ids|
        invariant View() == SendToAll(old(View()), ids[..i], e, except)
        invariant apps == old(apps)
      {
        assert ids[..i + 1][..i] == ids[..i];
        hide SendTo;
        if except != Some(ids[i]) {
          Send(ids[i], e);
        }
      }
      assert ids[..|ids|] == ids;
    }

    method CompleteHandshake(id: string)
      modifies this`tasks, this`ready
      ensures View() == Brokers.CompleteHandshake(old(View()), id)
    {
      hide SendTo;
      Send(id, Greeting(id));
      ghost var greeted := View();
      for i := 0 to |lastSSE|
        invariant View() == Replay(greeted, id, lastSSE[..i])
      {
        assert lastSSE[..i + 1][..i] == lastSSE[..i];
        Send(id, Sse(id, lastSSE[i].key, lastSSE[i].value));
      }
      assert lastSSE[..|lastSSE|] == lastSSE;
      ghost var now := Get(apps, id);
      if now.Some? {
        ready := ready + {now.value};
      }
    }

    method Route(e: Envelope)
      modifies this`tasks
      ensures View() == Brokers.Route(old(View()), e)
    {
      hide SendTo, Brokers.Broadcast;
      if e.target == "broker" {
        return;
      }
      if e.target == "broadcast" {
        Broadcast(e, None);
      } else if e.target == "others" {
        Broadcast(e, Some(e.source));
      } else {
        Send(e.target, e);
      }
    }

    method HandleEvent(island: nat, raw: Raw)
      requires Valid() && island < |records|
      modifies this
      ensures Valid() && steps == old(steps) + [Emits(island, raw)]
    {
      ghost var before := View();
      var id := records[island].id;
      hide Brokers.CompleteHandshake, Brokers.Route, After;
      match Normalise(id, raw) {
        case None =>
        case Some(e) =>
          if e.kind == "READY" {
            CompleteHandshake(id);
          } else if e.kind != "HTMX_SWAP" {
            Route(e);
          }
      }
      Remember(Emits(island, raw), before);
    }

    method ForwardSSE(name: string, data: string)
      requires Valid()
      modifies this
      ensures Valid() && steps == old(steps) + [Arrives(name, data)]
    {
      ghost var before := View();
      hide Brokers.Broadcast, Put, After;
      lastSSE := Put(lastSSE, name, data);
      Broadcast(Sse("broadcast", name, data), None);
      Remember(Arrives(name, data), before);
    }

    method AfterSwap(payload: Payload)
      requires Valid()
      modifies this
      ensures Valid() && steps == old(steps) + [Swapped(payload)]
    {
      ghost var before := View();
      hide Brokers.Broadcast, After;
      Broadcast(FromBroker("HTMX_AFTER_SWAP", "broadcast", payload), None);
      Remember(Swapped(payload), before);
    }

    method Mount(node: nat, id: string, port: bool)
      requires Valid()
      modifies this
      ensures Valid() && steps == old(steps) + [Mounts(node, id, port)]
    {
      ghost var before := View();
      hide After, Put;
      if node !in nodes && id != "" {
        apps := Put(apps, id, |records|);
        records := records + [Record(id, port)];
        delivered := delivered + [[]];
        nodes := nodes[node := id];
      }
      Remember(Mounts(node, id, port), before);
    }

    method Unmount(node: nat)
      requires Valid()
      modifies this
      ensures Valid() && steps == old(steps) + [Unmounts(node)]
    {
      ghost var before := View();
      hide After, Remove;
      if node in nodes {
        apps := Remove(apps, nodes[node]);
        nodes := nodes - {node};
      }
      Remember(Unmounts(node), before);
    }

    method RunMicrotask()
      requires Valid() && tasks != []
      modifies this
      ensures Valid() && steps == old(steps) + [Runs]
    {
      ghost var before := View();
      hide After;
      var task := tasks[0];
      tasks := tasks[1..];
      if task.record < |delivered| {
        delivered := delivered[task.record := delivered[task.record] + [task.message]];
      }
      Remember(Runs, before);
    }
  }
}
