/** The server-owned lattice: what its commands draw, and the proof that every
    diagram it publishes as valid is the Hasse diagram of a bounded lattice. */
module Lattices {

  datatype Node = Node(id: string, caption: string, x: real, y: real, level: int, selected: bool)

  datatype Edge = Edge(source: string, target: string)

  datatype Diagram = Diagram(seqNo: nat, nodes: seq<Node>, edges: seq<Edge>, selected: string,
                             lastAction: string, lastSource: string, valid: bool)

  /** The action words, all the words the model does not know being one. */
  datatype Action = SelectNode | AddNode | Promote | Reset | Unknown

  datatype Command = Command(action: Action, node: string, source: string)

  // ----------------------------------------------------------------------- names

  function Decimal(n: nat): (s: string)
    ensures |s| > 0
  {
    var digit := [(48 + n % 10) as char];
    if n < 10 then digit else Decimal(n / 10) + digit
  }

  /** The name of the i-th node created since the last reset. */
  function IdAt(i: nat): string {
    if i == 0 then "j" else if i == 1 then "h" else if i == 2 then "l" else if i == 3 then "k"
    else "n" + Decimal(i - 1)
  }

  lemma {:induction false} DecimalsDiffer(a: nat, b: nat)
    requires Decimal(a) == Decimal(b)
    ensures a == b
  {
    var x, y := Decimal(a), Decimal(b);
    assert x[|x| - 1] == (48 + a % 10) as char && y[|y| - 1] == (48 + b % 10) as char;
    assert a >= 10 ==> x[..|x| - 1] == Decimal(a / 10);
    assert b >= 10 ==> y[..|y| - 1] == Decimal(b / 10);
    if a >= 10 && b >= 10 {
      DecimalsDiffer(a / 10, b / 10);
    }
  }

  lemma IdsDiffer(i: nat, j: nat)
    requires i != j
    ensures IdAt(i) != IdAt(j)
  {
    if IdAt(i) == IdAt(j) {
      assert IdAt(i)[0] == IdAt(j)[0];
      assert i >= 4 && j >= 4;
      assert IdAt(i)[1..] == Decimal(i - 1) && IdAt(j)[1..] == Decimal(j - 1);
      DecimalsDiffer(i - 1, j - 1);
    }
  }

  /** All names differ, and the middle of the lattice is all but j and k. */
  lemma IdsAreDistinct()
    ensures forall i: nat, j: nat :: i != j ==> IdAt(i) != IdAt(j)
    ensures forall i: nat :: IsMid(IdAt(i)) <==> i != 0 && i != 3
  {
    forall i: nat, j: nat | i != j ensures IdAt(i) != IdAt(j) {
      IdsDiffer(i, j);
    }
  }

  predicate IsMid(id: string) { id != "j" && id != "k" }

  // ----------------------------------------------- what a history of commands draws

  function CleanSource(s: string): string {
    if s == "htmx" || s == "datastar" || s == "elm" || s == "imui" || s == "go" then s else "unknown"
  }

  /** The number of nodes: the first four, and one for each add since the reset. */
  function Size(h: seq<Command>): (n: nat)
    ensures n >= 4
  {
    if |h| == 0 then 4
    else
      var before, last := h[..|h| - 1], h[|h| - 1];
      if last.action.Reset? then 4
      else if last.action.AddNode? then Size(before) + 1
      else Size(before)
  }

  predicate Named(n: nat, id: string) { exists i :: 0 <= i < n && IdAt(i) == id }

  /** The selected node: the last one added, or selected while it existed. */
  function Chosen(h: seq<Command>): string {
    if |h| == 0 then "h"
    else
      var before, last := h[..|h| - 1], h[|h| - 1];
      if last.action.Reset? then "h"
      else if last.action.AddNode? then IdAt(Size(before))
      else if last.action.SelectNode? && Named(Size(before), last.node) then last.node
      else Chosen(before)
  }

  /** The nodes promoted since the reset. */
  function Raised(h: seq<Command>): set<string> {
    if |h| == 0 then {}
    else
      var before, last := h[..|h| - 1], h[|h| - 1];
      if last.action.Reset? then {}
      else if last.action.Promote? && IsMid(Chosen(before)) then Raised(before) + {Chosen(before)}
      else Raised(before)
  }

  /** What the last command that did something is said to have done. */
  function Told(h: seq<Command>): string {
    if |h| == 0 then "reset lattice"
    else
      var before, last := h[..|h| - 1], h[|h| - 1];
      if last.action.SelectNode? then
        if Named(Size(before), last.node) then "selected " + last.node else Told(before)
      else if last.action.AddNode? then "added middle node"
      else if last.action.Promote? then
        if IsMid(Chosen(before)) && Chosen(before) !in Raised(before) then "promoted " + Chosen(before)
        else Told(before)
      else if last.action.Reset? then "reset lattice"
      else "ignored unknown command"
  }

  function Asker(h: seq<Command>): string {
    if |h| == 0 then "go" else CleanSource(h[|h| - 1].source)
  }

  /** Where the i-th node comes among the middle ones, counting from 1. */
  function Place(i: nat): nat { if i < 3 then i else i - 1 }

  function NodeAt(n: nat, i: nat, raised: set<string>): Node
    requires n >= 4
  {
    var id := IdAt(i);
    if i == 0 then Node(id, id, 0.5, 0.86, 0, false)
    else if i == 3 then Node(id, id, 0.5, 0.18, 2, false)
    else
      var x := Place(i) as real / (n - 1) as real;
      if id in raised then Node(id, id, x, 0.34, 2, false) else Node(id, id, x, 0.52, 1, false)
  }

  function Drawn(n: nat, raised: set<string>): seq<Node>
    requires n >= 4
  {
    seq(n, i requires 0 <= i < n => NodeAt(n, i, raised))
  }

  function EdgesOf(n: nat): seq<Edge>
    requires n >= 4
  {
    if n == 4 then [Edge("j", "h"), Edge("j", "l"), Edge("h", "k"), Edge("l", "k")]
    else EdgesOf(n - 1) + [Edge("j", IdAt(n - 1)), Edge(IdAt(n - 1), "k")]
  }

  function Flagged(nodes: seq<Node>, selected: string): seq<Node> {
    seq(|nodes|, i requires 0 <= i < |nodes| => nodes[i].(selected := nodes[i].id == selected))
  }

  /** The diagram published after a history of commands. */
  function Shown(h: seq<Command>): Diagram {
    Diagram(1 + |h|, Flagged(Drawn(Size(h), Raised(h)), Chosen(h)), EdgesOf(Size(h)),
            Chosen(h), Told(h), Asker(h), true)
  }

  // ---------------------------------------------------------------------- layout

  /** How many of the first i nodes are in the middle. */
  function MidsBefore(nodes: seq<Node>, i: nat): (r: nat)
    requires i <= |nodes|
    ensures r <= i
  {
    if i == 0 then 0 else MidsBefore(nodes, i - 1) + if IsMid(nodes[i - 1].id) then 1 else 0
  }

  /** Middle nodes spread out evenly, those not promoted on one row. */
  function Laid(nodes: seq<Node>): seq<Node> {
    seq(|nodes|, i requires 0 <= i < |nodes| =>
      if !IsMid(nodes[i].id) then nodes[i]
      else nodes[i].(x := (MidsBefore(nodes, i) + 1) as real / (MidsBefore(nodes, |nodes|) + 1) as real,
                     y := if nodes[i].level <= 1 then 0.52 else nodes[i].y))
  }

  /** The promotion of the selected node, where it is not at the top yet. */
  function Promoted(nodes: seq<Node>, selected: string): seq<Node> {
    seq(|nodes|, i requires 0 <= i < |nodes| =>
      var node := nodes[i];
      if node.id != selected || node.level >= 2 then node
      else node.(level := node.level + 1, y := if node.y - 0.18 > 0.18 then node.y - 0.18 else 0.18))
  }

  ghost predicate Has(nodes: seq<Node>, id: string) {
    exists i :: 0 <= i < |nodes| && nodes[i].id == id
  }

  ghost predicate CanRise(nodes: seq<Node>, id: string) {
    exists i :: 0 <= i < |nodes| && nodes[i].id == id && nodes[i].level < 2
  }

  /** Nodes with the right names, levels and promoted heights. */
  ghost predicate Shaped(nodes: seq<Node>, n: nat, raised: set<string>)
    requires n >= 4
  {
    && |nodes| == n
    && nodes[0] == NodeAt(n, 0, raised) && nodes[3] == NodeAt(n, 3, raised)
    && forall i :: 0 <= i < n && i != 0 && i != 3 ==>
      && nodes[i].id == nodes[i].caption == IdAt(i)
      && nodes[i].level == (if IdAt(i) in raised then 2 else 1)
      && (IdAt(i) in raised ==> nodes[i].y == 0.34)
      && !nodes[i].selected
  }

  lemma {:induction false} PlaceCounts(nodes: seq<Node>, i: nat)
    requires i <= |nodes|
    requires forall k :: 0 <= k < |nodes| ==> nodes[k].id == IdAt(k)
    ensures MidsBefore(nodes, i) == if i == 0 then 0 else if i <= 3 then i - 1 else i - 2
  {
    if i > 0 {
      IdsAreDistinct();
      assert nodes[i - 1].id == IdAt(i - 1);
      PlaceCounts(nodes, i - 1);
    }
  }

  lemma LaidIsDrawn(nodes: seq<Node>, n: nat, raised: set<string>)
    requires n >= 4 && Shaped(nodes, n, raised)
    ensures Laid(nodes) == Drawn(n, raised)
  {
    IdsAreDistinct();
    forall i | 0 <= i < n ensures Laid(nodes)[i] == NodeAt(n, i, raised) {
      LaidAt(nodes, n, raised, i);
    }
    hide IdAt, Laid, Shaped, NodeAt;
    assert |Laid(nodes)| == n;
  }

  lemma LaidAt(nodes: seq<Node>, n: nat, raised: set<string>, i: nat)
    requires n >= 4 && Shaped(nodes, n, raised) && i < n
    ensures |Laid(nodes)| == n && Laid(nodes)[i] == NodeAt(n, i, raised)
  {
    IdsAreDistinct();
    PlaceCounts(nodes, i);
    PlaceCounts(nodes, n);
    hide IdAt, MidsBefore;
  }

  lemma {:induction false} NamesOfHistory(h: seq<Command>)
    ensures Named(Size(h), Chosen(h)) && Chosen(h) != ""
    ensures forall id :: id in Raised(h) ==> Named(Size(h), id) && IsMid(id)
    decreases |h|
  {
    assert IdAt(1) == "h";
    if |h| > 0 {
      var before, last := h[..|h| - 1], h[|h| - 1];
      NamesOfHistory(before);
      assert forall i: nat :: IdAt(i) != "";
      hide IdAt;
      assert forall id :: Named(Size(before), id) ==> Named(Size(before) + 1, id);
      assert IdAt(Size(before)) == IdAt(Size(before)) && Named(Size(before) + 1, IdAt(Size(before)));
    }
  }

  lemma DrawnIsShaped(n: nat, raised: set<string>)
    requires n >= 4
    ensures Shaped(Drawn(n, raised), n, raised) && |Drawn(n, raised)| == n
  {
    hide IdAt;
  }

  /** The name of a new node is new. */
  lemma NameIsNew(n: nat)
    requires n >= 4
    ensures IdAt(n) == "n" + Decimal(n - 1) && !Named(n, IdAt(n))
    ensures EdgesOf(n + 1) == EdgesOf(n) + [Edge("j", IdAt(n)), Edge(IdAt(n), "k")]
  {
    if Named(n, IdAt(n)) {
      var i :| 0 <= i < n && IdAt(i) == IdAt(n);
      IdsDiffer(i, n);
    }
  }

  /** A new node makes room for itself. */
  lemma AddingIsShaped(n: nat, raised: set<string>, added: Node)
    requires n >= 4 && IdAt(n) !in raised
    requires added.id == added.caption == IdAt(n) && added.level == 1 && !added.selected
    ensures Shaped(Drawn(n, raised) + [added], n + 1, raised)
  {
    hide IdAt;
  }

  /** A promotion raises the selected node once, and no other. */
  lemma PromotingIsShaped(n: nat, raised: set<string>, id: string)
    requires n >= 4 && Named(n, id) && IsMid(id)
    ensures Shaped(Promoted(Drawn(n, raised), id), n, raised + {id})
    ensures CanRise(Drawn(n, raised), id) <==> id !in raised
  {
    IdsAreDistinct();
    hide IdAt;
    var k :| 0 <= k < n && IdAt(k) == id;
    assert Drawn(n, raised)[k].id == id;
  }

  lemma NamesAreDrawn(n: nat, raised: set<string>, id: string)
    requires n >= 4
    ensures Has(Drawn(n, raised), id) <==> Named(n, id)
  {
    hide IdAt;
    if Named(n, id) {
      var k :| 0 <= k < n && IdAt(k) == id;
      assert Drawn(n, raised)[k].id == id;
    }
  }

  /** The positions of the middle nodes among the first i, in order. */
  function MidsOf(nodes: seq<Node>, i: nat): seq<nat>
    requires i <= |nodes|
  {
    if i == 0 then [] else MidsOf(nodes, i - 1) + if IsMid(nodes[i - 1].id) then [i - 1] else []
  }

  /** A middle node stands in that list at its rank. */
  lemma {:induction false} MidsAreRanked(nodes: seq<Node>, i: nat)
    requires i <= |nodes|
    ensures |MidsOf(nodes, i)| == MidsBefore(nodes, i)
    ensures forall k :: 0 <= k < |MidsOf(nodes, i)| ==>
      && MidsOf(nodes, i)[k] < i && IsMid(nodes[MidsOf(nodes, i)[k]].id)
      && MidsBefore(nodes, MidsOf(nodes, i)[k]) == k
    ensures forall m: nat :: m < i && IsMid(nodes[m].id) ==>
      MidsBefore(nodes, m) < |MidsOf(nodes, i)| && MidsOf(nodes, i)[MidsBefore(nodes, m)] == m
  {
    if i > 0 {
      MidsAreRanked(nodes, i - 1);
      hide IsMid;
    }
  }

  // What one more command changes.

  lemma AfterReset(h: seq<Command>, cmd: Command)
    requires cmd.action.Reset?
    ensures Size(h + [cmd]) == 4 && Raised(h + [cmd]) == {}
    ensures Chosen(h + [cmd]) == "h" && Told(h + [cmd]) == "reset lattice"
    ensures Asker(h + [cmd]) == CleanSource(cmd.source)
  {
  }

  lemma AfterAdd(h: seq<Command>, cmd: Command)
    requires cmd.action.AddNode?
    ensures Size(h + [cmd]) == Size(h) + 1 && Raised(h + [cmd]) == Raised(h)
    ensures Chosen(h + [cmd]) == IdAt(Size(h)) && Told(h + [cmd]) == "added middle node"
  {
    assert (h + [cmd])[..|h|] == h;
  }

  lemma AfterPromote(h: seq<Command>, cmd: Command)
    requires cmd.action.Promote?
    ensures Size(h + [cmd]) == Size(h) && Chosen(h + [cmd]) == Chosen(h)
    ensures Raised(h + [cmd]) == (if IsMid(Chosen(h)) then Raised(h) + {Chosen(h)} else Raised(h))
    ensures Told(h + [cmd]) == if IsMid(Chosen(h)) && Chosen(h) !in Raised(h) then "promoted " + Chosen(h) else Told(h)
  {
    assert (h + [cmd])[..|h|] == h;
  }

  lemma AfterSelect(h: seq<Command>, cmd: Command)
    requires cmd.action.SelectNode?
    ensures Size(h + [cmd]) == Size(h) && Raised(h + [cmd]) == Raised(h)
    ensures Chosen(h + [cmd]) == (if Named(Size(h), cmd.node) then cmd.node else Chosen(h))
    ensures Told(h + [cmd]) == if Named(Size(h), cmd.node) then "selected " + cmd.node else Told(h)
  {
    assert (h + [cmd])[..|h|] == h;
  }

  lemma AfterUnknown(h: seq<Command>, cmd: Command)
    requires cmd.action.Unknown?
    ensures Size(h + [cmd]) == Size(h) && Raised(h + [cmd]) == Raised(h)
    ensures Chosen(h + [cmd]) == Chosen(h) && Told(h + [cmd]) == "ignored unknown command"
  {
    assert (h + [cmd])[..|h|] == h;
  }

  class Model {
    var seqNo: nat
    var nodes: seq<Node>
    var edges: seq<Edge>
    var selected: string
    var lastAction: string
    var lastSource: string
    var published: seq<Diagram>
    ghost var history: seq<Command>

    /** The fields stand for the history of commands. */
    ghost predicate Valid()
      reads this
    {
      && seqNo == 1 + |history|
      && nodes == Drawn(Size(history), Raised(history))
      && edges == EdgesOf(Size(history))
      && selected == Chosen(history)
      && lastAction == Told(history)
      && lastSource == Asker(history)
    }

    constructor ()
      ensures Valid() && history == [] && published == []
    {
      seqNo, nodes, edges, selected, lastAction, lastSource := 0, [], [], "", "", "";
      history, published := [], [];
      new;
      Reset("go");
    }

    /** Put back the first four nodes. */
    method Reset(source: string)
      modifies this`seqNo, this`nodes, this`edges, this`selected, this`lastAction, this`lastSource
      ensures seqNo == old(seqNo) + 1
      ensures nodes == Drawn(4, {}) && edges == EdgesOf(4)
      ensures selected == "h" && lastAction == "reset lattice" && lastSource == source
    {
      seqNo := seqNo + 1;
      nodes := [
        Node("j", "j", 0.5, 0.86, 0, false),
        Node("h", "h", 0.32, 0.52, 1, false),
        Node("l", "l", 0.68, 0.52, 1, false),
        Node("k", "k", 0.5, 0.18, 2, false)
      ];
      edges := [Edge("j", "h"), Edge("j", "l"), Edge("h", "k"), Edge("l", "k")];
      selected := "h";
      lastAction := "reset lattice";
      lastSource := source;
      LaidIsDrawn(nodes, 4, {});
      LayoutMiddle();
    }

    method Middles() returns (mids: seq<nat>)
      ensures |mids| == MidsBefore(nodes, |nodes|)
      ensures forall k :: 0 <= k < |mids| ==>
        mids[k] < |nodes| && IsMid(nodes[mids[k]].id) && MidsBefore(nodes, mids[k]) == k
      ensures forall m: nat :: m < |nodes| && IsMid(nodes[m].id) ==>
        MidsBefore(nodes, m) < |mids| && mids[MidsBefore(nodes, m)] == m
    {
      MidsAreRanked(nodes, |nodes|);
      mids := [];
      for i := 0 to |nodes|
        invariant mids == MidsOf(nodes, i)
      {
        if nodes[i].id != "j" && nodes[i].id != "k" {
          mids := mids + [i];
        }
      }
    }

    method LayoutMiddle()
      modifies this`nodes
      ensures nodes == Laid(old(nodes))
    {
      ghost var was := nodes;
      var mids := Middles();
      hide MidsBefore, IsMid;
      for j := 0 to |mids|
        invariant |nodes| == |was|
        invariant forall m: nat :: m < |was| ==>
          nodes[m] == if IsMid(was[m].id) && MidsBefore(was, m) < j then Laid(was)[m] else was[m]
      {
        var i := mids[j];
        var x := (j + 1) as real / (|mids| + 1) as real;
        nodes := nodes[i := nodes[i].(x := x)];
        if nodes[i].level <= 1 {
          nodes := nodes[i := nodes[i].(y := 0.52)];
        }
      }
    }

    method HasNode(id: string) returns (has: bool)
      ensures has <==> Has(nodes, id)
    {
      for i := 0 to |nodes|
        invariant forall k :: 0 <= k < i ==> nodes[k].id != id
      {
        if nodes[i].id == id {
          return true;
        }
      }
      return false;
    }

    method AddNode()
      requires |nodes| > 0
      modifies this`nodes, this`edges, this`selected
      ensures selected == "n" + Decimal(|old(nodes)| - 1)
      ensures nodes == old(nodes) + [Node(selected, selected, 0.5, 0.5, 1, false)]
      ensures edges == old(edges) + [Edge("j", selected), Edge(selected, "k")]
    {
      var id := "n" + Decimal(|nodes| - 1);
      nodes := nodes + [Node(id, id, 0.5, 0.5, 1, false)];
      edges := edges + [Edge("j", id), Edge(id, "k")];
      selected := id;
    }

    method Promote()
      modifies this`nodes, this`lastAction
      ensures nodes == Promoted(old(nodes), selected)
      ensures lastAction == if CanRise(old(nodes), selected) then "promoted " + selected else old(lastAction)
    {
      ghost var was := nodes;
      for i := 0 to |nodes|
        invariant |nodes| == |was|
        invariant forall k :: 0 <= k < |was| ==> nodes[k] == if k < i then Promoted(was, selected)[k] else was[k]
        invariant lastAction == if exists k :: 0 <= k < i && was[k].id == selected && was[k].level < 2
                                then "promoted " + selected else old(lastAction)
      {
        if nodes[i].id == selected && nodes[i].level < 2 {
          var y := nodes[i].y - 0.18;
          nodes := nodes[i := nodes[i].(level := nodes[i].level + 1, y := if y > 0.18 then y else 0.18)];
          lastAction := "promoted " + selected;
        }
      }
    }

    method Snapshot() returns (d: Diagram)
      requires Valid()
      ensures d == Shown(history)
    {
      var shown := nodes;
      for i := 0 to |nodes|
        invariant |shown| == |nodes|
        invariant forall k :: 0 <= k < |nodes| ==> shown[k] == if k < i then Flagged(nodes, selected)[k] else nodes[k]
      {
        shown := shown[i := shown[i].(selected := shown[i].id == selected)];
      }
      d := Diagram(seqNo, shown, edges, selected, lastAction, lastSource, true);
    }

    /** The fields stand for a history, but for the count and the layout. */
    ghost predicate Ready(h: seq<Command>)
      reads this
    {
      && Shaped(nodes, Size(h), Raised(h))
      && edges == EdgesOf(Size(h))
      && selected == Chosen(h)
      && lastAction == Told(h)
    }

    method Select(cmd: Command)
      requires Valid() && cmd.action.SelectNode?
      modifies this`selected, this`lastAction
      ensures Ready(history + [cmd])
    {
      DrawnIsShaped(Size(history), Raised(history));
      AfterSelect(history, cmd);
      NamesAreDrawn(Size(history), Raised(history), cmd.node);
      hide Size, Chosen, Raised, Told, Shaped, Drawn, Named, Has;
      var has := HasNode(cmd.node);
      if has {
        selected := cmd.node;
        lastAction := "selected " + cmd.node;
      }
    }

    method Add(cmd: Command)
      requires Valid() && cmd.action.AddNode?
      modifies this`nodes, this`edges, this`selected, this`lastAction
      ensures Ready(history + [cmd])
    {
      ghost var n := Size(history);
      NamesOfHistory(history);
      DrawnIsShaped(n, Raised(history));
      AfterAdd(history, cmd);
      NameIsNew(n);
      hide Size, Chosen, Raised, Told, Shaped, Drawn, Named, IdAt, EdgesOf;
      AddNode();
      AddingIsShaped(n, Raised(history), nodes[n]);
      lastAction := "added middle node";
    }

    method Raise(cmd: Command)
      requires Valid() && cmd.action.Promote?
      modifies this`nodes, this`lastAction
      ensures Ready(history + [cmd])
    {
      NamesOfHistory(history);
      DrawnIsShaped(Size(history), Raised(history));
      AfterPromote(history, cmd);
      hide Size, Chosen, Raised, Told, Shaped, Drawn, Named, CanRise, Promoted;
      if selected != "" && selected != "k" && selected != "j" {
        PromotingIsShaped(Size(history), Raised(history), selected);
        Promote();
      }
    }

    method Ignore(cmd: Command)
      requires Valid() && cmd.action.Unknown?
      modifies this`lastAction
      ensures Ready(history + [cmd])
    {
      DrawnIsShaped(Size(history), Raised(history));
      AfterUnknown(history, cmd);
      lastAction := "ignored unknown command";
    }

    method Publish() returns (d: Diagram)
      requires Valid()
      modifies this`published
      ensures Valid() && d == Shown(history) && published == old(published) + [d]
    {
      d := Snapshot();
      published := published + [d];
    }

    /** Count the command and lay the nodes out. */
    method Conclude(cmd: Command)
      requires Ready(history + [cmd]) && seqNo == 1 + |history|
      modifies this`history, this`lastSource, this`seqNo, this`nodes
      ensures Valid() && history == old(history) + [cmd]
    {
      lastSource := CleanSource(cmd.source);
      seqNo := seqNo + 1;
      assert Asker(history + [cmd]) == lastSource;
      hide Size, Chosen, Raised, Told, Asker;
      history := history + [cmd];
      LaidIsDrawn(nodes, Size(history), Raised(history));
      LayoutMiddle();
    }

    method Restart(cmd: Command)
      requires Valid() && cmd.action.Reset?
      modifies this`history, this`lastSource, this`seqNo, this`nodes, this`edges, this`selected, this`lastAction
      ensures Valid() && history == old(history) + [cmd]
    {
      AfterReset(history, cmd);
      hide Size, Chosen, Raised, Told, Asker, Drawn, EdgesOf;
      Reset(CleanSource(cmd.source));
      history := history + [cmd];
    }

    method Apply(cmd: Command) returns (d: Diagram)
      requires Valid()
      modifies this
      ensures Valid() && history == old(history) + [cmd]
      ensures d == Shown(history) && published == old(published) + [d]
    {
      assert seqNo == 1 + |history|;
      hide *;
      if cmd.action.Reset? {
        Restart(cmd);
        d := Publish();
        return;
      }
      Perform(cmd);
      Conclude(cmd);
      d := Publish();
    }

    method Perform(cmd: Command)
      requires Valid() && !cmd.action.Reset?
      modifies this`nodes, this`edges, this`selected, this`lastAction
      ensures Ready(history + [cmd])
    {
      hide *;
      match cmd.action {
        case SelectNode => Select(cmd);
        case AddNode => Add(cmd);
        case Promote => Raise(cmd);
        case Unknown => Ignore(cmd);
      }
    }
  }
}
