/** Every diagram the model publishes is marked valid.  Here that is a theorem:
    the diagram is the Hasse diagram of a bounded lattice, drawn as one. */
module LatticeOrder {
  import opened Lattices

  // ------------------------------------------------- what a valid diagram must be

  ghost predicate IsNode(d: Diagram, a: string) { Has(d.nodes, a) }

  /** A walk along the edges. */
  ghost predicate Path(edges: seq<Edge>, p: seq<string>) {
    |p| > 0 && (|p| > 1 ==> Edge(p[0], p[1]) in edges && Path(edges, p[1..]))
  }

  /** The order the edges generate: their reflexive and transitive closure. */
  ghost predicate Leq(d: Diagram, a: string, b: string) {
    exists p :: Path(d.edges, p) && p[0] == a && p[|p| - 1] == b
  }

  ghost predicate IsJoin(d: Diagram, a: string, b: string, c: string) {
    && IsNode(d, c) && Leq(d, a, c) && Leq(d, b, c)
    && forall u :: IsNode(d, u) && Leq(d, a, u) && Leq(d, b, u) ==> Leq(d, c, u)
  }

  ghost predicate IsMeet(d: Diagram, a: string, b: string, c: string) {
    && IsNode(d, c) && Leq(d, c, a) && Leq(d, c, b)
    && forall u :: IsNode(d, u) && Leq(d, u, a) && Leq(d, u, b) ==> Leq(d, u, c)
  }

  /** b lies above a with nothing between. */
  ghost predicate Covers(d: Diagram, a: string, b: string) {
    && a != b && Leq(d, a, b)
    && forall u :: IsNode(d, u) && Leq(d, a, u) && Leq(d, u, b) ==> u == a || u == b
  }

  ghost predicate NamesDiffer(d: Diagram) {
    forall i, j :: 0 <= i < j < |d.nodes| ==> d.nodes[i].id != d.nodes[j].id
  }

  ghost predicate Antisymmetric(d: Diagram) {
    forall a, b :: IsNode(d, a) && IsNode(d, b) && Leq(d, a, b) && Leq(d, b, a) ==> a == b
  }

  ghost predicate Transitive(d: Diagram) {
    forall a, b, c :: IsNode(d, a) && IsNode(d, b) && IsNode(d, c) && Leq(d, a, b) && Leq(d, b, c) ==> Leq(d, a, c)
  }

  ghost predicate Bounded(d: Diagram) {
    IsNode(d, "j") && IsNode(d, "k") && forall a :: IsNode(d, a) ==> Leq(d, "j", a) && Leq(d, a, "k")
  }

  ghost predicate HasJoins(d: Diagram) {
    forall a, b :: IsNode(d, a) && IsNode(d, b) ==>
      exists c :: IsJoin(d, a, b, c) && forall other :: IsJoin(d, a, b, other) ==> other == c
  }

  ghost predicate HasMeets(d: Diagram) {
    forall a, b :: IsNode(d, a) && IsNode(d, b) ==>
      exists c :: IsMeet(d, a, b, c) && forall other :: IsMeet(d, a, b, other) ==> other == c
  }

  /** The edges are the cover relation, each drawn once. */
  ghost predicate IsHasse(d: Diagram) {
    && (forall e :: e in d.edges ==> IsNode(d, e.source) && IsNode(d, e.target))
    && (forall a, b :: IsNode(d, a) && IsNode(d, b) ==> (Edge(a, b) in d.edges <==> Covers(d, a, b)))
    && (forall i, j :: 0 <= i < j < |d.edges| ==> d.edges[i] != d.edges[j])
    && |d.edges| == 2 * (|d.nodes| - 2)
  }

  /** Exactly one node is flagged: the one the diagram names. */
  ghost predicate OneSelected(d: Diagram) {
    exists i :: 0 <= i < |d.nodes| && d.nodes[i].selected && d.nodes[i].id == d.selected
      && forall k :: 0 <= k < |d.nodes| && d.nodes[k].selected ==> k == i
  }

  /** What lies higher in the order is drawn higher: y runs down the page. */
  ghost predicate DrawnUpwards(d: Diagram) {
    forall i, k :: 0 <= i < |d.nodes| && 0 <= k < |d.nodes| && i != k ==>
      Leq(d, d.nodes[i].id, d.nodes[k].id) ==> d.nodes[i].y > d.nodes[k].y
  }

  /** The middle nodes go from left to right in the order they were added. */
  ghost predicate SpreadOut(d: Diagram) {
    && (forall i :: 0 <= i < |d.nodes| && IsMid(d.nodes[i].id) ==> 0.0 < d.nodes[i].x < 1.0)
    && (forall i, k :: 0 <= i < k < |d.nodes| && IsMid(d.nodes[i].id) && IsMid(d.nodes[k].id) ==>
          d.nodes[i].x < d.nodes[k].x)
  }

  // ------------------------------------------------------------ how it is proved

  /** Between the bottom and the top, no two nodes are comparable. */
  predicate Below(a: string, b: string) { a == b || a == "j" || b == "k" }

  /** The diagram has the names and edges of one with n nodes. */
  ghost predicate Star(d: Diagram, n: nat) {
    && n >= 4 && |d.nodes| == n && d.edges == EdgesOf(n)
    && forall i :: 0 <= i < n ==> d.nodes[i].id == IdAt(i)
  }

  predicate IsEdge(n: nat, e: Edge) {
    || (e.source == "j" && IsMid(e.target) && Named(n, e.target))
    || (e.target == "k" && IsMid(e.source) && Named(n, e.source))
  }

  lemma {:induction false} EdgesAre(n: nat, e: Edge)
    requires n >= 4
    ensures e in EdgesOf(n) <==> IsEdge(n, e)
  {
    IdsAreDistinct();
    if n == 4 {
      assert IdAt(0) == "j" && IdAt(1) == "h" && IdAt(2) == "l" && IdAt(3) == "k";
      assert forall id :: Named(4, id) <==> id == IdAt(0) || id == IdAt(1) || id == IdAt(2) || id == IdAt(3);
    } else {
      EdgesAre(n - 1, e);
      NameIsNew(n - 1);
      hide IdAt, EdgesOf;
      assert forall id :: Named(n, id) <==> Named(n - 1, id) || id == IdAt(n - 1);
    }
  }

  lemma {:induction false} EdgesDiffer(n: nat)
    requires n >= 4
    ensures |EdgesOf(n)| == 2 * (n - 2)
    ensures forall i, j :: 0 <= i < j < |EdgesOf(n)| ==> EdgesOf(n)[i] != EdgesOf(n)[j]
  {
    if n > 4 {
      EdgesDiffer(n - 1);
      NameIsNew(n - 1);
      IdsAreDistinct();
      forall e | e in EdgesOf(n - 1) ensures e.source != IdAt(n - 1) && e.target != IdAt(n - 1) {
        EdgesAre(n - 1, e);
      }
    }
  }

  /** No path leads anywhere but up from the bottom or up to the top. */
  lemma {:induction false} PathsAreShort(n: nat, p: seq<string>)
    requires n >= 4 && Path(EdgesOf(n), p)
    ensures Below(p[0], p[|p| - 1])
    decreases |p|
  {
    if |p| > 1 {
      EdgesAre(n, Edge(p[0], p[1]));
      PathsAreShort(n, p[1..]);
      if p[0] != "j" && |p| > 2 {
        EdgesAre(n, Edge(p[1], p[2]));
      }
    }
  }

  lemma EdgesLead(d: Diagram, a: string, m: string, b: string)
    ensures Leq(d, a, a)
    ensures Edge(a, b) in d.edges ==> Leq(d, a, b)
    ensures Edge(a, m) in d.edges && Edge(m, b) in d.edges ==> Leq(d, a, b)
  {
    var p, q := [a, b], [a, m, b];
    assert Path(d.edges, [a]);
    assert p[1..] == [b] && q[1..] == [m, b] && [m, b][1..] == [b];
    assert Edge(a, b) in d.edges ==> Path(d.edges, p);
    assert Edge(a, m) in d.edges && Edge(m, b) in d.edges ==> Path(d.edges, q);
  }

  lemma FirstNames(n: nat)
    requires n >= 4
    ensures Named(n, "j") && Named(n, "h") && Named(n, "k")
    ensures Edge("j", "h") in EdgesOf(n) && Edge("h", "k") in EdgesOf(n)
  {
    assert IdAt(0) == "j" && IdAt(1) == "h" && IdAt(3) == "k";
    EdgesAre(n, Edge("j", "h"));
    EdgesAre(n, Edge("h", "k"));
  }

  /** The order of a diagram, in closed form. */
  lemma LeqIsBelow(d: Diagram, n: nat, a: string, b: string)
    requires Star(d, n) && Named(n, a) && Named(n, b)
    ensures Leq(d, a, b) <==> Below(a, b)
  {
    EdgesAre(n, Edge(a, b));
    EdgesLead(d, a, "h", b);
    FirstNames(n);
    hide EdgesOf, Named, IdAt;
    if Leq(d, a, b) {
      var p :| Path(d.edges, p) && p[0] == a && p[|p| - 1] == b;
      PathsAreShort(n, p);
    }
  }

  lemma NodesAreNamed(d: Diagram, n: nat)
    requires Star(d, n)
    ensures forall a :: IsNode(d, a) <==> Named(n, a)
    ensures IsNode(d, "j") && IsNode(d, "h") && IsNode(d, "k")
  {
    FirstNames(n);
    hide IdAt, EdgesOf;
    forall a ensures IsNode(d, a) <==> Named(n, a) {
      if IsNode(d, a) {
        var i :| 0 <= i < n && d.nodes[i].id == a;
        assert IdAt(i) == a;
      }
      if Named(n, a) {
        var i :| 0 <= i < n && IdAt(i) == a;
        assert d.nodes[i].id == a;
      }
    }
  }

  /** The order of a diagram, all of it, and its three first nodes. */
  ghost predicate Ordered(d: Diagram) {
    && (forall a, b :: IsNode(d, a) && IsNode(d, b) ==> (Leq(d, a, b) <==> Below(a, b)))
    && IsNode(d, "j") && IsNode(d, "h") && IsNode(d, "k")
  }

  lemma StarIsOrdered(d: Diagram, n: nat)
    requires Star(d, n)
    ensures Ordered(d)
  {
    NodesAreNamed(d, n);
    forall a, b | IsNode(d, a) && IsNode(d, b) ensures Leq(d, a, b) <==> Below(a, b) {
      LeqIsBelow(d, n, a, b);
    }
  }

  function Join(a: string, b: string): string {
    if Below(a, b) then b else if Below(b, a) then a else "k"
  }

  function Meet(a: string, b: string): string {
    if Below(a, b) then a else if Below(b, a) then b else "j"
  }

  lemma JoinsAreUnique(d: Diagram, a: string, b: string, c: string, other: string)
    requires Ordered(d) && IsNode(d, a) && IsNode(d, b) && IsJoin(d, a, b, c) && IsJoin(d, a, b, other)
    ensures c == other
  {
    assert Leq(d, c, other) && Leq(d, other, c);
    hide Leq, Has, IsJoin;
  }

  lemma JoinIsJoin(d: Diagram, a: string, b: string)
    requires Ordered(d) && IsNode(d, a) && IsNode(d, b)
    ensures IsJoin(d, a, b, Join(a, b))
  {
    hide Leq, Has;
  }

  lemma OrderedHasJoins(d: Diagram)
    requires Ordered(d)
    ensures HasJoins(d)
  {
    hide Leq, Has, IsJoin, Below, Ordered, Join;
    forall a, b | IsNode(d, a) && IsNode(d, b)
      ensures exists c :: IsJoin(d, a, b, c) && forall other :: IsJoin(d, a, b, other) ==> other == c
    {
      JoinIsJoin(d, a, b);
      forall other | IsJoin(d, a, b, other) ensures other == Join(a, b) {
        JoinsAreUnique(d, a, b, Join(a, b), other);
      }
    }
  }

  lemma MeetsAreUnique(d: Diagram, a: string, b: string, c: string, other: string)
    requires Ordered(d) && IsNode(d, a) && IsNode(d, b) && IsMeet(d, a, b, c) && IsMeet(d, a, b, other)
    ensures c == other
  {
    assert Leq(d, c, other) && Leq(d, other, c);
    hide Leq, Has, IsMeet;
  }

  lemma MeetIsMeet(d: Diagram, a: string, b: string)
    requires Ordered(d) && IsNode(d, a) && IsNode(d, b)
    ensures IsMeet(d, a, b, Meet(a, b))
  {
    hide Leq, Has;
  }

  lemma OrderedHasMeets(d: Diagram)
    requires Ordered(d)
    ensures HasMeets(d)
  {
    hide Leq, Has, IsMeet, Below, Ordered, Meet;
    forall a, b | IsNode(d, a) && IsNode(d, b)
      ensures exists c :: IsMeet(d, a, b, c) && forall other :: IsMeet(d, a, b, other) ==> other == c
    {
      MeetIsMeet(d, a, b);
      forall other | IsMeet(d, a, b, other) ensures other == Meet(a, b) {
        MeetsAreUnique(d, a, b, Meet(a, b), other);
      }
    }
  }

  /** Only a middle node stands between the bottom and the top. */
  lemma CoversAreEdges(d: Diagram, n: nat, a: string, b: string)
    requires Star(d, n) && IsNode(d, a) && IsNode(d, b)
    ensures Edge(a, b) in d.edges <==> Covers(d, a, b)
  {
    StarIsOrdered(d, n);
    NodesAreNamed(d, n);
    EdgesAre(n, Edge(a, b));
    hide Leq, Has, Path, Star, Named, EdgesOf;
  }

  lemma StarIsHasse(d: Diagram, n: nat)
    requires Star(d, n)
    ensures IsHasse(d)
  {
    NodesAreNamed(d, n);
    FirstNames(n);
    EdgesDiffer(n);
    forall e | e in d.edges ensures IsNode(d, e.source) && IsNode(d, e.target) {
      EdgesAre(n, e);
    }
    forall a, b | IsNode(d, a) && IsNode(d, b) ensures Edge(a, b) in d.edges <==> Covers(d, a, b) {
      CoversAreEdges(d, n, a, b);
    }
  }

  lemma StarNamesDiffer(d: Diagram, n: nat)
    requires Star(d, n)
    ensures NamesDiffer(d)
  {
    IdsAreDistinct();
    hide IdAt, EdgesOf;
  }

  lemma ShownIsStar(h: seq<Command>)
    ensures Star(Shown(h), Size(h))
    ensures forall i :: 0 <= i < Size(h) ==>
      Shown(h).nodes[i] == NodeAt(Size(h), i, Raised(h)).(selected := IdAt(i) == Chosen(h))
    ensures Shown(h).selected == Chosen(h)
  {
    hide IdAt, EdgesOf, Size, Raised, Chosen, Told, Asker;
  }

  lemma SelectsOne(h: seq<Command>)
    ensures OneSelected(Shown(h))
  {
    NamesOfHistory(h);
    ShownIsStar(h);
    var d, n := Shown(h), Size(h);
    assert |d.nodes| == n;
    IdsAreDistinct();
    hide IdAt, EdgesOf, Size, Raised, Chosen, Told, Asker, Shown;
    var i :| 0 <= i < n && IdAt(i) == Chosen(h);
    assert d.nodes[i].selected;
  }

  lemma DivisionGrows(p: real, q: real, w: real)
    requires p < q && 0.0 < w
    ensures p / w < q / w
  {
    assert q / w - p / w == (q - p) / w;
    assert (q - p) / w * w == q - p;
  }

  /** Each middle node is drawn to the right of the ones before. */
  lemma PlacesGrow(n: nat, i: nat, k: nat)
    requires n >= 4 && 0 < i < n && i != 3 && 0 < k < n && k != 3
    ensures 0.0 < Place(i) as real / (n - 1) as real < 1.0
    ensures i < k ==> Place(i) as real / (n - 1) as real < Place(k) as real / (n - 1) as real
  {
    var p, q, w := Place(i) as real, Place(k) as real, (n - 1) as real;
    assert 0.0 < p < w && 0.0 < q < w;
    DivisionGrows(0.0, p, w);
    DivisionGrows(p, w, w);
    if i < k {
      DivisionGrows(p, q, w);
    }
  }

  lemma BelowAt(i: nat, k: nat)
    ensures Below(IdAt(i), IdAt(k)) <==> i == k || i == 0 || k == 3
  {
    assert IdAt(0) == "j" && IdAt(3) == "k";
    IdsAreDistinct();
    hide IdAt;
  }

  lemma HeightsAt(n: nat, i: nat, k: nat, raised: set<string>)
    requires n >= 4 && i != k && (i == 0 || k == 3)
    ensures NodeAt(n, i, raised).y > NodeAt(n, k, raised).y
  {
    hide IdAt;
  }

  /** Heights fall from the bottom of the order to its top. */
  lemma HigherIsHigher(h: seq<Command>, i: nat, k: nat)
    requires i < Size(h) && k < Size(h) && i != k
    requires |Shown(h).nodes| == Size(h) && Leq(Shown(h), IdAt(i), IdAt(k))
    ensures Shown(h).nodes[i].y > Shown(h).nodes[k].y
  {
    var d, n := Shown(h), Size(h);
    ShownIsStar(h);
    NodesAreNamed(d, n);
    assert Named(n, IdAt(i)) && Named(n, IdAt(k));
    hide *;
    LeqIsBelow(d, n, IdAt(i), IdAt(k));
    BelowAt(i, k);
    HeightsAt(n, i, k, Raised(h));
  }

  lemma PlacedAt(n: nat, i: nat, raised: set<string>)
    requires n >= 4 && 0 < i < n && i != 3
    ensures NodeAt(n, i, raised).x == Place(i) as real / (n - 1) as real
  {
    hide IdAt;
  }

  lemma MiddleSpreads(h: seq<Command>, i: nat, k: nat)
    requires 0 < i < Size(h) && i != 3 && 0 < k < Size(h) && k != 3
    requires |Shown(h).nodes| == Size(h)
    ensures 0.0 < Shown(h).nodes[i].x < 1.0
    ensures i < k ==> Shown(h).nodes[i].x < Shown(h).nodes[k].x
  {
    hide *;
    ShownIsStar(h);
    PlacesGrow(Size(h), i, k);
    PlacedAt(Size(h), i, Raised(h));
    PlacedAt(Size(h), k, Raised(h));
  }

  lemma DrawsUpwards(h: seq<Command>)
    ensures DrawnUpwards(Shown(h))
  {
    ShownIsStar(h);
    var d, n := Shown(h), Size(h);
    hide IdAt, EdgesOf, Size, Raised, Chosen, Shown, Leq;
    forall i, k | 0 <= i < n && 0 <= k < n && i != k && Leq(d, d.nodes[i].id, d.nodes[k].id)
      ensures d.nodes[i].y > d.nodes[k].y
    {
      HigherIsHigher(h, i, k);
    }
  }

  lemma SpreadsOut(h: seq<Command>)
    ensures SpreadOut(Shown(h))
  {
    ShownIsStar(h);
    var d, n := Shown(h), Size(h);
    IdsAreDistinct();
    hide IdAt, EdgesOf, Size, Raised, Chosen, Shown, IsMid;
    forall i, k | 0 <= i < n && IsMid(d.nodes[i].id) && 0 <= k < n && IsMid(d.nodes[k].id)
      ensures 0.0 < d.nodes[i].x < 1.0 && (i < k ==> d.nodes[i].x < d.nodes[k].x)
    {
      MiddleSpreads(h, i, k);
    }
  }

  lemma OrderedIsBounded(d: Diagram)
    requires Ordered(d)
    ensures Transitive(d) && Antisymmetric(d) && Bounded(d)
  {
    hide Leq, Has;
  }

  /** Whatever commands came before, the diagram published is a bounded lattice
      drawn by its cover relation, as its valid mark says. */
  lemma AlwaysALattice(h: seq<Command>)
    ensures Shown(h).valid && Shown(h).seqNo == 1 + |h|
    ensures NamesDiffer(Shown(h))
    ensures Transitive(Shown(h)) && Antisymmetric(Shown(h)) && Bounded(Shown(h))
    ensures HasJoins(Shown(h)) && HasMeets(Shown(h))
    ensures IsHasse(Shown(h)) && OneSelected(Shown(h))
    ensures DrawnUpwards(Shown(h)) && SpreadOut(Shown(h))
  {
    var d := Shown(h);
    assert d.valid && d.seqNo == 1 + |h|;
    hide *;
    ShownIsStar(h);
    StarIsOrdered(d, Size(h));
    OrderedIsBounded(d);
    OrderedHasJoins(d);
    OrderedHasMeets(d);
    StarNamesDiffer(d, Size(h));
    StarIsHasse(d, Size(h));
    SelectsOne(h);
    DrawsUpwards(h);
    SpreadsOut(h);
  }

  // ----------------------------------------------------- what each command shows

  /** The diagram says who asked, of the five it knows; it is numbered on. */
  lemma CommandsAreAttributed(h: seq<Command>, cmd: Command)
    ensures var d := Shown(h + [cmd]);
      && (cmd.source in {"htmx", "datastar", "elm", "imui", "go"} ==> d.lastSource == cmd.source)
      && (cmd.source !in {"htmx", "datastar", "elm", "imui", "go"} ==> d.lastSource == "unknown")
      && d.seqNo == Shown(h).seqNo + 1
    ensures Shown([]).lastSource == "go"
  {
    assert (h + [cmd])[|h|] == cmd;
  }

  lemma NodesByName(h: seq<Command>, id: string)
    ensures |Shown(h).nodes| == Size(h)
    ensures IsNode(Shown(h), id) <==> Named(Size(h), id)
  {
    ShownIsStar(h);
    NodesAreNamed(Shown(h), Size(h));
    hide IdAt, Shown, Size, EdgesOf;
  }

  lemma OneMoreName(n: nat, id: string)
    ensures Named(n + 1, id) <==> Named(n, id) || id == IdAt(n)
  {
    hide IdAt;
    if Named(n, id) {
      var i :| 0 <= i < n && IdAt(i) == id;
      assert Named(n + 1, id);
    }
    if id == IdAt(n) {
      assert Named(n + 1, id);
    }
  }

  /** Adding a node keeps the others and shows one that was not there, selected. */
  lemma AddingShowsANewNode(h: seq<Command>, cmd: Command, id: string)
    requires cmd.action.AddNode?
    ensures var d, e := Shown(h), Shown(h + [cmd]);
      && |e.nodes| == |d.nodes| + 1 && !IsNode(d, e.selected) && e.lastAction == "added middle node"
      && (IsNode(e, id) <==> IsNode(d, id) || id == e.selected)
  {
    AfterAdd(h, cmd);
    NodesByName(h, id);
    NodesByName(h, Shown(h + [cmd]).selected);
    NodesByName(h + [cmd], id);
    OneMoreName(Size(h), id);
    NameIsNew(Size(h));
    hide IdAt, Size, IsNode, Named, EdgesOf, Drawn, Flagged, Asker, Raised;
  }

  /** Selecting moves the selection to a node that is there, and nowhere else. */
  lemma SelectingSelects(h: seq<Command>, cmd: Command, id: string)
    requires cmd.action.SelectNode?
    ensures var d, e := Shown(h), Shown(h + [cmd]);
      && e.selected == (if IsNode(d, cmd.node) then cmd.node else d.selected)
      && e.lastAction == (if IsNode(d, cmd.node) then "selected " + cmd.node else d.lastAction)
      && |e.nodes| == |d.nodes| && e.edges == d.edges
      && (IsNode(e, id) <==> IsNode(d, id))
  {
    AfterSelect(h, cmd);
    NodesByName(h, id);
    NodesByName(h, cmd.node);
    NodesByName(h + [cmd], id);
    hide IdAt, Size, IsNode, Named, EdgesOf, Drawn, Flagged, Told;
  }

  /** Promoting takes the selected node to the top row, unless it is one of the
      two bounds, and changes no other. */
  lemma PromotingRaises(h: seq<Command>, cmd: Command, i: nat)
    requires cmd.action.Promote? && i < |Shown(h).nodes|
    ensures var d, e := Shown(h), Shown(h + [cmd]);
      && |e.nodes| == |d.nodes| && e.edges == d.edges && e.selected == d.selected
      && e.nodes[i]
         == if d.nodes[i].id == d.selected && IsMid(d.selected) then d.nodes[i].(level := 2, y := 0.34) else d.nodes[i]
  {
    AfterPromote(h, cmd);
    ShownIsStar(h);
    ShownIsStar(h + [cmd]);
    PromotedNode(Size(h), i, Raised(h), Chosen(h));
    hide *;
  }

  lemma PromotedNode(n: nat, i: nat, raised: set<string>, id: string)
    requires n >= 4 && i < n
    ensures NodeAt(n, i, raised + {id})
         == if IdAt(i) == id && IsMid(id) then NodeAt(n, i, raised).(level := 2, y := 0.34) else NodeAt(n, i, raised)
    ensures NodeAt(n, i, raised).id == IdAt(i)
  {
    IdsAreDistinct();
    assert IdAt(0) == "j" && IdAt(3) == "k";
    hide IdAt;
  }

  /** Resetting shows what a new lattice shows; an unknown command nothing new. */
  lemma ResettingStartsOver(h: seq<Command>, cmd: Command)
    requires cmd.action.Reset? || cmd.action.Unknown?
    ensures var d, e := if cmd.action.Reset? then Shown([]) else Shown(h), Shown(h + [cmd]);
      && e.nodes == d.nodes && e.edges == d.edges && e.selected == d.selected
      && e.lastAction == if cmd.action.Reset? then "reset lattice" else "ignored unknown command"
  {
    if cmd.action.Reset? {
      AfterReset(h, cmd);
    } else {
      AfterUnknown(h, cmd);
    }
    hide IdAt, EdgesOf, Drawn, Flagged;
  }
}
