/** Building a graph: which nodes feed which, the order they are scheduled in, and whether they
    hang together. */
module GraphBuild {
  import opened Basics

  /** Node and port names; only their identity matters. */
  type Name = nat

  datatype PortRef = PortRef(node: Name, port: Name)

  /** Nodes with their port names, the links between ports, and the back links of declared loops
      (from a node to the source its loop link comes from). */
  datatype Graph = Graph(
    inPorts: map<Name, set<Name>>,
    outPorts: map<Name, set<Name>>,
    links: set<(PortRef, PortRef)>,
    loopLinks: map<Name, Name>)

  /** What `AddNode` and `AddLink` let through. */
  ghost predicate WellFormed(g: Graph) {
    && g.inPorts.Keys == g.outPorts.Keys
    && forall l | l in g.links ::
         && l.0.node in g.outPorts && l.0.port in g.outPorts[l.0.node]
         && l.1.node in g.inPorts && l.1.port in g.inPorts[l.1.node]
  }

  function Nodes(g: Graph): set<Name> {
    g.inPorts.Keys
  }

  function Sources(g: Graph, n: Name): set<Name> {
    if n !in g.inPorts then {}
    else set l | l in g.links && l.1.node == n && l.1.port in g.inPorts[n] :: l.0.node
  }

  function Dests(g: Graph, n: Name): set<Name> {
    if n !in g.outPorts then {}
    else set l | l in g.links && l.0.node == n && l.0.port in g.outPorts[n] :: l.1.node
  }

  function StartNodes(g: Graph): set<Name> {
    set n | n in g.inPorts && g.inPorts[n] == {}
  }

  predicate Edge(g: Graph, a: Name, b: Name) {
    a in Sources(g, b)
  }

  predicate IsLoopLink(g: Graph, a: Name, b: Name) {
    b in g.loopLinks && g.loopLinks[b] == a
  }

  lemma {:induction false} EdgeEnds(g: Graph, a: Name, b: Name)
    requires WellFormed(g)
    ensures b in Dests(g, a) <==> Edge(g, a, b)
    ensures Edge(g, a, b) ==> a in Nodes(g) && b in Nodes(g) && b !in StartNodes(g)
  {
    if b in Dests(g, a) {
      var l :| l in g.links && l.0.node == a && l.1.node == b;
      assert l.0.node in Sources(g, b);
    }
    if Edge(g, a, b) {
      var l :| l in g.links && l.1.node == b && l.0.node == a;
      assert l.1.node in Dests(g, a);
    }
  }

  // ----- what a schedule has to respect -----

  /** `b` cannot be scheduled before `a`: `a` feeds it, and not merely over the back link of a loop
      that `b` is also fed from outside of. */
  ghost predicate Precedes(g: Graph, a: Name, b: Name) {
    Edge(g, a, b) && (IsLoopLink(g, a, b) ==> Sources(g, b) == {a})
  }

  /** A start node, or a node something is linked to. */
  ghost predicate Rooted(g: Graph, n: Name) {
    n in StartNodes(g) || Sources(g, n) != {}
  }

  ghost predicate IsPath(g: Graph, p: seq<Name>) {
    forall i | 0 <= i < |p| - 1 :: Precedes(g, p[i], p[i + 1])
  }

  ghost predicate IsCycle(g: Graph, p: seq<Name>) {
    |p| >= 2 && p[0] == p[|p| - 1] && IsPath(g, p)
  }

  ghost predicate Acyclic(g: Graph) {
    forall p :: !IsCycle(g, p)
  }

  /** The graphs that have an order, said without mentioning one. */
  ghost predicate Schedulable(g: Graph) {
    Nodes(g) != {} && (forall n | n in Nodes(g) :: Rooted(g, n)) && Acyclic(g)
  }

  ghost predicate Distinct(s: seq<Name>) {
    forall i, j | 0 <= i < j < |s| :: s[i] != s[j]
  }

  /** Every predecessor of an element stands before it. */
  ghost predicate Ordered(g: Graph, topo: seq<Name>) {
    forall j, a | 0 <= j < |topo| && Precedes(g, a, topo[j]) :: a in topo[..j]
  }

  ghost predicate IsTopologicalOrder(g: Graph, topo: seq<Name>) {
    Distinct(topo) && (forall n :: n in topo <==> n in Nodes(g)) && Ordered(g, topo)
  }

  // ----- an order excludes cycles -----

  lemma {:induction false} PathAscends(g: Graph, topo: seq<Name>, p: seq<Name>, j: nat)
    requires Distinct(topo) && Ordered(g, topo)
    requires |p| >= 2 && IsPath(g, p) && j < |topo| && topo[j] == p[|p| - 1]
    ensures p[0] in topo[..j]
    decreases |p|
  {
    var n := |p| - 2;
    assert Precedes(g, p[n], topo[j]);
    var i :| 0 <= i < j && topo[i] == p[n];
    if n > 0 {
      assert IsPath(g, p[..n + 1]);
      PathAscends(g, topo, p[..n + 1], i);
    }
  }

  lemma {:induction false} OrderedIsAcyclic(g: Graph, topo: seq<Name>)
    requires WellFormed(g) && IsTopologicalOrder(g, topo)
    ensures Acyclic(g)
  {
    forall p ensures !IsCycle(g, p) {
      if |p| >= 2 && IsPath(g, p) {
        var last := p[|p| - 1];
        assert Precedes(g, p[|p| - 2], last);
        EdgeEnds(g, p[|p| - 2], last);
        var j :| 0 <= j < |topo| && topo[j] == last;
        PathAscends(g, topo, p, j);
        assert last !in topo[..j];
      }
    }
  }

  // ----- a set in which everything waits for a member has a cycle -----

  ghost predicate WaitsInside(g: Graph, u: set<Name>, v: Name) {
    exists a :: a in u && Precedes(g, a, v)
  }

  ghost predicate Stuck(g: Graph, u: set<Name>) {
    u != {} && forall v {:trigger WaitsInside(g, u, v)} | v in u :: WaitsInside(g, u, v)
  }

  lemma {:induction false} PathPrepend(g: Graph, a: Name, p: seq<Name>)
    requires p != [] && IsPath(g, p) && Precedes(g, a, p[0])
    ensures IsPath(g, [a] + p)
  {
    var p' := [a] + p;
    forall i | 0 <= i < |p'| - 1 ensures Precedes(g, p'[i], p'[i + 1]) {
      if i > 0 { assert Precedes(g, p[i - 1], p[i]); }
    }
  }

  lemma {:induction false} PathPrefix(g: Graph, p: seq<Name>, n: nat)
    requires IsPath(g, p) && n <= |p|
    ensures IsPath(g, p[..n])
  {
    forall i | 0 <= i < n - 1 ensures Precedes(g, p[..n][i], p[..n][i + 1]) {
      assert Precedes(g, p[i], p[i + 1]);
    }
  }

  lemma {:induction false} Shrinks(u: set<Name>, p: seq<Name>, a: Name)
    requires a in u && a !in p
    ensures |u - Elems([a] + p)| < |u - Elems(p)|
  {
    assert u - Elems(p) == (u - Elems([a] + p)) + {a};
  }

  lemma {:induction false} CloseCycle(g: Graph, a: Name, p: seq<Name>) returns (c: seq<Name>)
    requires a in p && IsPath(g, [a] + p)
    ensures IsCycle(g, c)
  {
    var k :| 0 <= k < |p| && p[k] == a;
    PathPrefix(g, [a] + p, k + 2);
    c := ([a] + p)[..k + 2];
  }

  lemma {:induction false} WalkBack(g: Graph, u: set<Name>, p: seq<Name>) returns (c: seq<Name>)
    requires Stuck(g, u) && p != [] && p[0] in u && IsPath(g, p)
    ensures IsCycle(g, c)
    decreases |u - Elems(p)|
  {
    assert WaitsInside(g, u, p[0]);
    var a :| a in u && Precedes(g, a, p[0]);
    PathPrepend(g, a, p);
    if a in p {
      c := CloseCycle(g, a, p);
    } else {
      Shrinks(u, p, a);
      c := WalkBack(g, u, [a] + p);
    }
  }

  lemma {:induction false} StuckHasCycle(g: Graph, u: set<Name>)
    requires Stuck(g, u)
    ensures !Acyclic(g)
  {
    var v :| v in u;
    var c := WalkBack(g, u, [v]);
  }

  // ----- the worklist -----

  /** Why a node outside the order need not be on the worklist: nothing is linked to it, or one of its
      predecessors is still missing. */
  ghost predicate Blocked(g: Graph, topo: seq<Name>, v: Name) {
    !Rooted(g, v) || exists a :: Precedes(g, a, v) && a !in topo
  }

  /** Why a node may stand on the worklist. */
  ghost predicate Queued(g: Graph, topo: seq<Name>, v: Name) {
    v in Nodes(g) && (v in StartNodes(g) || exists a :: a in topo && Edge(g, a, v))
  }

  ghost predicate Sorting(g: Graph, topo: seq<Name>, work: set<Name>) {
    && Distinct(topo) && Ordered(g, topo)
    && (forall n | n in topo :: n in Nodes(g) && Rooted(g, n))
    && (forall n | n in work :: Queued(g, topo, n))
    && forall v | v in Nodes(g) && v !in topo && v !in work :: Blocked(g, topo, v)
  }

  /** A node that is fed at all has a predecessor. */
  lemma {:induction false} HasPredecessor(g: Graph, v: Name)
    requires Sources(g, v) != {}
    ensures exists a :: Precedes(g, a, v)
  {
    var a :| a in Sources(g, v);
    if !Precedes(g, a, v) {
      var b :| b in Sources(g, v) && b != a;
      assert Precedes(g, b, v);
    }
  }

  lemma {:induction false} SortingStart(g: Graph)
    ensures Sorting(g, [], StartNodes(g))
  {
    forall v | v in Nodes(g) && v !in StartNodes(g) ensures Blocked(g, [], v) {
      if Sources(g, v) != {} { HasPredecessor(g, v); }
    }
  }

  lemma {:induction false} SortingDrop(g: Graph, topo: seq<Name>, work: set<Name>, n: Name)
    requires Sorting(g, topo, work) && (n in topo || exists a :: Precedes(g, a, n) && a !in topo)
    ensures Sorting(g, topo, work - {n})
  {
  }

  /** The test of the loop, which skips the loop's own back link, is enough: a queued node fed only over
      a back link was queued by it. */
  lemma {:induction false} ReadyIsReady(g: Graph, topo: seq<Name>, n: Name)
    requires WellFormed(g) && Queued(g, topo, n)
    requires forall a | Edge(g, a, n) && !IsLoopLink(g, a, n) :: a in topo
    ensures forall a | Precedes(g, a, n) :: a in topo
    ensures Rooted(g, n)
  {
    forall a | Precedes(g, a, n) ensures a in topo {
      EdgeEnds(g, a, n);
      if IsLoopLink(g, a, n) {
        var b :| b in topo && Edge(g, b, n);
      }
    }
  }

  lemma {:induction false} OrderedExtends(g: Graph, topo: seq<Name>, n: Name)
    requires Ordered(g, topo) && forall a | Precedes(g, a, n) :: a in topo
    ensures Ordered(g, topo + [n])
  {
    var topo' := topo + [n];
    forall j, a | 0 <= j < |topo'| && Precedes(g, a, topo'[j]) ensures a in topo'[..j] {
      if j < |topo| { assert topo'[..j] == topo[..j]; } else { assert topo'[..j] == topo; }
    }
  }

  lemma {:induction false} StillBlocked(g: Graph, topo: seq<Name>, n: Name, v: Name)
    requires Blocked(g, topo, v) && !Edge(g, n, v)
    ensures Blocked(g, topo + [n], v)
  {
    if Rooted(g, v) {
      var a :| Precedes(g, a, v) && a !in topo;
      assert a !in topo + [n];
    }
  }

  lemma {:induction false} StillQueued(g: Graph, topo: seq<Name>, n: Name, v: Name)
    requires WellFormed(g) && (Queued(g, topo, v) || v in Dests(g, n))
    ensures Queued(g, topo + [n], v)
  {
    EdgeEnds(g, n, v);
    if v in Dests(g, n) {
      assert n in topo + [n];
    } else if v !in StartNodes(g) {
      var a :| a in topo && Edge(g, a, v);
      assert a in topo + [n];
    }
  }

  /** Placing a ready node queues everything it feeds, so whatever it was the last missing predecessor
      of is looked at again. */
  lemma {:induction false} SortingPlace(g: Graph, topo: seq<Name>, work: set<Name>, n: Name)
    requires WellFormed(g) && Sorting(g, topo, work) && n in work && n !in topo && Rooted(g, n)
    requires forall a | Precedes(g, a, n) :: a in topo
    ensures Sorting(g, topo + [n], (work - {n}) + Dests(g, n))
  {
    var topo', work' := topo + [n], (work - {n}) + Dests(g, n);
    OrderedExtends(g, topo, n);
    forall v | v in work' ensures Queued(g, topo', v) {
      StillQueued(g, topo, n, v);
    }
    forall v | v in Nodes(g) && v !in topo' && v !in work' ensures Blocked(g, topo', v) {
      EdgeEnds(g, n, v);
      StillBlocked(g, topo, n, v);
    }
  }

  lemma {:induction false} DistinctCount(topo: seq<Name>)
    requires Distinct(topo)
    ensures |Elems(topo)| == |topo|
    decreases |topo|
  {
    if topo != [] {
      var n := |topo| - 1;
      DistinctCount(topo[..n]);
      assert Elems(topo) == Elems(topo[..n]) + {topo[n]};
      assert topo[n] !in topo[..n];
    }
  }

  lemma {:induction false} PlacedCount(g: Graph, topo: seq<Name>)
    requires Distinct(topo) && forall n | n in topo :: n in Nodes(g)
    ensures |topo| <= |Nodes(g)|
    ensures |topo| == |Nodes(g)| <==> forall n :: n in topo <==> n in Nodes(g)
  {
    DistinctCount(topo);
    SubsetSize(Elems(topo), Nodes(g));
    if |topo| == |Nodes(g)| {
      forall n | n in Nodes(g) ensures n in topo {
        assert n in Elems(topo);
      }
    } else {
      var n :| n in Nodes(g) && n !in Elems(topo);
      assert n !in topo;
    }
  }

  lemma {:induction false} LeftoverIsStuck(g: Graph, topo: seq<Name>)
    requires WellFormed(g) && Sorting(g, topo, {}) && (forall n | n in Nodes(g) :: Rooted(g, n))
    requires exists n :: n in Nodes(g) && n !in topo
    ensures Stuck(g, Nodes(g) - Elems(topo))
  {
    var u := Nodes(g) - Elems(topo);
    forall v | v in u ensures WaitsInside(g, u, v) {
      assert Blocked(g, topo, v);
      var a :| Precedes(g, a, v) && a !in topo;
      EdgeEnds(g, a, v);
    }
    var n :| n in Nodes(g) && n !in topo;
    assert n in u;
  }

  lemma {:induction false} SortedIffSchedulable(g: Graph, topo: seq<Name>)
    requires WellFormed(g) && Sorting(g, topo, {})
    ensures |topo| == |Nodes(g)| ==> IsTopologicalOrder(g, topo)
    ensures Nodes(g) != {} ==> (|topo| == |Nodes(g)| <==> Schedulable(g))
  {
    PlacedCount(g, topo);
    if |topo| == |Nodes(g)| {
      OrderedIsAcyclic(g, topo);
    } else if forall n | n in Nodes(g) :: Rooted(g, n) {
      LeftoverIsStuck(g, topo);
      StuckHasCycle(g, Nodes(g) - Elems(topo));
    }
  }

  /** The inner loop: are all sources, back link aside, placed?  */
  method IsReady(g: Graph, topo: seq<Name>, n: Name) returns (ready: bool)
    ensures ready <==> forall a | Edge(g, a, n) && !IsLoopLink(g, a, n) :: a in topo
  {
    ready := true;
    var rest := Sources(g, n);
    while rest != {}
      invariant rest <= Sources(g, n)
      invariant ready <==> forall a | Edge(g, a, n) && a !in rest && !IsLoopLink(g, a, n) :: a in topo
      decreases |rest|
    {
      var a :| a in rest;
      rest := rest - {a};
      if !IsLoopLink(g, a, n) && a !in topo {
        ready := false;
      }
    }
  }

  lemma {:induction false} NotReady(g: Graph, topo: seq<Name>, n: Name)
    requires exists a :: Edge(g, a, n) && !IsLoopLink(g, a, n) && a !in topo
    ensures exists a :: Precedes(g, a, n) && a !in topo
  {
    var a :| Edge(g, a, n) && !IsLoopLink(g, a, n) && a !in topo;
    assert Precedes(g, a, n);
  }

  /** One node off the worklist. */
  method Visit(g: Graph, topo: seq<Name>, work: set<Name>, n: Name) returns (topo': seq<Name>, work': set<Name>)
    requires WellFormed(g) && Sorting(g, topo, work) && n in work
    ensures Sorting(g, topo', work')
    ensures (topo' == topo && work' == work - {n}) || |topo| < |topo'| <= |Nodes(g)|
  {
    topo', work' := topo, work - {n};
    if n in topo {
      SortingDrop(g, topo, work, n);
      return;
    }
    var ready := IsReady(g, topo, n);
    if ready {
      ReadyIsReady(g, topo, n);
      SortingPlace(g, topo, work, n);
      topo', work' := topo + [n], work' + Dests(g, n);
      PlacedCount(g, topo');
    } else {
      NotReady(g, topo, n);
      SortingDrop(g, topo, work, n);
    }
  }

  /** The scheduling order. It succeeds on exactly the graphs that have one, whichever node is taken off
      the worklist first. */
  method GenerateTopology(g: Graph) returns (ok: bool, topo: seq<Name>)
    requires WellFormed(g)
    ensures ok <==> Schedulable(g)
    ensures ok ==> IsTopologicalOrder(g, topo)
  {
    topo := [];
    var work := StartNodes(g);
    SortingStart(g);
    if work == {} {
      SortedIffSchedulable(g, topo);
      return false, topo;
    }
    while work != {}
      invariant Sorting(g, topo, work) && Nodes(g) != {}
      decreases |Nodes(g)| - |topo|, |work|
    {
      var n :| n in work;
      topo, work := Visit(g, topo, work, n);
    }
    SortedIffSchedulable(g, topo);
    ok := |topo| == |Nodes(g)|;
  }

  // ----- the plain case -----

  predicate InConnected(g: Graph, n: Name, p: Name) {
    exists l :: l in g.links && l.1 == PortRef(n, p)
  }

  predicate OutConnected(g: Graph, n: Name, p: Name) {
    exists l :: l in g.links && l.0 == PortRef(n, p)
  }

  ghost predicate NodeConnected(g: Graph, n: Name) {
    && (n in g.inPorts ==> forall p | p in g.inPorts[n] :: InConnected(g, n, p))
    && (n in g.outPorts ==> forall p | p in g.outPorts[n] :: OutConnected(g, n, p))
  }

  method IsAllPortConnect(g: Graph) returns (ok: bool)
    requires WellFormed(g)
    ensures ok <==> forall n | n in Nodes(g) :: NodeConnected(g, n)
  {
    ok := true;
    var rest := Nodes(g);
    while rest != {}
      invariant rest <= Nodes(g) && forall n | n in Nodes(g) && n !in rest :: NodeConnected(g, n)
      decreases |rest|
    {
      var n :| n in rest;
      rest := rest - {n};
      var ins := PortsConnected(g, n, g.inPorts[n], true);
      if !ins {
        return false;
      }
      var outs := PortsConnected(g, n, g.outPorts[n], false);
      if !outs {
        return false;
      }
    }
  }

  method PortsConnected(g: Graph, n: Name, ports: set<Name>, isIn: bool) returns (ok: bool)
    ensures ok <==> forall p | p in ports :: if isIn then InConnected(g, n, p) else OutConnected(g, n, p)
  {
    var rest := ports;
    while rest != {}
      invariant rest <= ports
      invariant forall p | p in ports && p !in rest :: if isIn then InConnected(g, n, p) else OutConnected(g, n, p)
      decreases |rest|
    {
      var p :| p in rest;
      rest := rest - {p};
      if !(if isIn then InConnected(g, n, p) else OutConnected(g, n, p)) {
        return false;
      }
    }
    ok := true;
  }

  ghost predicate IsEdgeCycle(g: Graph, p: seq<Name>) {
    |p| >= 2 && p[0] == p[|p| - 1] && forall i | 0 <= i < |p| - 1 :: Edge(g, p[i], p[i + 1])
  }

  lemma {:induction false} ConnectedIsRooted(g: Graph, n: Name)
    requires WellFormed(g) && n in Nodes(g) && NodeConnected(g, n)
    ensures Rooted(g, n)
  {
    if g.inPorts[n] != {} {
      var p :| p in g.inPorts[n];
      assert InConnected(g, n, p);
      var l :| l in g.links && l.1 == PortRef(n, p);
      assert l.0.node in Sources(g, n);
    }
  }

  lemma {:induction false} PlainCycle(g: Graph, p: seq<Name>)
    requires g.loopLinks == map[]
    ensures IsCycle(g, p) <==> IsEdgeCycle(g, p)
  {
    assert forall a, b :: Precedes(g, a, b) <==> Edge(g, a, b);
  }

  /** With every port connected and no declared loop, `GenerateTopology` decides acyclicity. */
  lemma {:induction false} PlainSchedulable(g: Graph)
    requires WellFormed(g) && Nodes(g) != {} && g.loopLinks == map[] && forall n | n in Nodes(g) :: NodeConnected(g, n)
    ensures Schedulable(g) <==> forall p :: !IsEdgeCycle(g, p)
  {
    forall n | n in Nodes(g) ensures Rooted(g, n) {
      ConnectedIsRooted(g, n);
    }
    forall p ensures IsCycle(g, p) <==> IsEdgeCycle(g, p) {
      PlainCycle(g, p);
    }
  }

  ghost predicate AllConnected(g: Graph) {
    WellFormed(g) && forall n | n in Nodes(g) :: NodeConnected(g, n)
  }

  lemma {:induction false} PlacedLater(g: Graph, topo: seq<Name>, j: nat, b: Name) returns (k: nat)
    requires WellFormed(g) && IsTopologicalOrder(g, topo) && j < |topo| && Precedes(g, topo[j], b)
    ensures j < k < |topo| && topo[k] == b
  {
    EdgeEnds(g, topo[j], b);
    k :| 0 <= k < |topo| && topo[k] == b;
    assert topo[j] in topo[..k];
  }

  lemma {:induction false} LinkPrecedes(g: Graph, l: (PortRef, PortRef))
    requires WellFormed(g) && g.loopLinks == map[] && l in g.links
    ensures Precedes(g, l.0.node, l.1.node)
  {
    assert l.1.port in g.inPorts[l.1.node];
    assert l.0.node in Sources(g, l.1.node);
  }

  lemma {:induction false} FedByOutput(g: Graph, n: Name) returns (b: Name)
    requires AllConnected(g) && g.loopLinks == map[] && n in Nodes(g) && g.outPorts[n] != {}
    ensures Precedes(g, n, b)
  {
    assert NodeConnected(g, n);
    var q :| q in g.outPorts[n];
    assert OutConnected(g, n, q);
    var l :| l in g.links && l.0 == PortRef(n, q);
    LinkPrecedes(g, l);
    b := l.1.node;
  }

  lemma {:induction false} LeadsOn(g: Graph, topo: seq<Name>, j: nat) returns (p: seq<Name>)
    requires AllConnected(g) && g.loopLinks == map[] && IsTopologicalOrder(g, topo) && j < |topo|
    ensures p != [] && p[0] == topo[j] && IsPath(g, p)
    ensures p[|p| - 1] in Nodes(g) && g.outPorts[p[|p| - 1]] == {}
    decreases |topo| - j
  {
    var n := topo[j];
    assert n in Nodes(g);
    if g.outPorts[n] == {} {
      return [n];
    }
    var b := FedByOutput(g, n);
    var k := PlacedLater(g, topo, j, b);
    var rest := LeadsOn(g, topo, k);
    PathPrepend(g, n, rest);
    p := [n] + rest;
  }

  lemma {:induction false} PathAppend(g: Graph, p: seq<Name>, b: Name)
    requires p != [] && IsPath(g, p) && Precedes(g, p[|p| - 1], b)
    ensures IsPath(g, p + [b])
  {
    var q := p + [b];
    forall i | 0 <= i < |q| - 1 ensures Precedes(g, q[i], q[i + 1]) {
      if i < |p| - 1 { assert Precedes(g, p[i], p[i + 1]); }
    }
  }

  lemma {:induction false} PlacedBefore(g: Graph, topo: seq<Name>, j: nat) returns (i: nat)
    requires Ordered(g, topo) && g.loopLinks == map[] && j < |topo| && Sources(g, topo[j]) != {}
    ensures i < j && Precedes(g, topo[i], topo[j])
  {
    var a :| a in Sources(g, topo[j]);
    assert Precedes(g, a, topo[j]);
    i :| 0 <= i < j && topo[i] == a;
  }

  lemma {:induction false} LeadsFrom(g: Graph, topo: seq<Name>, j: nat) returns (p: seq<Name>)
    requires AllConnected(g) && g.loopLinks == map[] && IsTopologicalOrder(g, topo) && j < |topo|
    ensures p != [] && p[|p| - 1] == topo[j] && IsPath(g, p) && p[0] in StartNodes(g)
    decreases j
  {
    var n := topo[j];
    assert n in Nodes(g);
    ConnectedIsRooted(g, n);
    if n in StartNodes(g) {
      return [n];
    }
    var i := PlacedBefore(g, topo, j);
    var rest := LeadsFrom(g, topo, i);
    PathAppend(g, rest, n);
    p := rest + [n];
  }

  /** What the two checks are for: once a graph has passed both, every node is on the way from a node
      without inputs to a node without outputs. */
  lemma {:induction false} OnTheWay(g: Graph, topo: seq<Name>, n: Name) returns (p: seq<Name>)
    requires AllConnected(g) && g.loopLinks == map[] && IsTopologicalOrder(g, topo) && n in Nodes(g)
    ensures n in p && IsPath(g, p) && p[0] in StartNodes(g)
    ensures p[|p| - 1] in Nodes(g) && g.outPorts[p[|p| - 1]] == {}
  {
    var j :| 0 <= j < |topo| && topo[j] == n;
    var before := LeadsFrom(g, topo, j);
    var after := LeadsOn(g, topo, j);
    p := before + after[1..];
    forall i | 0 <= i < |p| - 1 ensures Precedes(g, p[i], p[i + 1]) {
      if i < |before| - 1 {
        assert Precedes(g, before[i], before[i + 1]);
      } else {
        var k := i + 1 - |before|;
        assert Precedes(g, after[k], after[k + 1]);
      }
    }
    assert p[|before| - 1] == n;
  }

  // ----- one connected piece -----

  /** No link crosses the border of `s`. */
  ghost predicate Uncut(g: Graph, done: set<(PortRef, PortRef)>, s: set<Name>) {
    s <= Nodes(g) && forall l | l in done :: l.0.node in s <==> l.1.node in s
  }

  /** Connected, directions ignored: only the empty and the full set of nodes can be cut out. */
  ghost predicate Connected(g: Graph) {
    forall s | Uncut(g, g.links, s) :: s == {} || s == Nodes(g)
  }

  function Class(group: map<Name, nat>, k: nat): set<Name> {
    set n | n in group && group[n] == k
  }

  /** The labels say exactly which nodes the links seen so far hold together. */
  ghost predicate Labelled(g: Graph, done: set<(PortRef, PortRef)>, group: map<Name, nat>) {
    && group.Keys == Nodes(g)
    && (forall l | l in done && l.0.node in group && l.1.node in group :: group[l.0.node] == group[l.1.node])
    && forall s, a, b | Uncut(g, done, s) && a in s && b in group && group[a] == group[b] :: b in s
  }

  function Joined(group: map<Name, nat>, x: nat, y: nat): map<Name, nat> {
    map n | n in group :: if group[n] == x || group[n] == y then (if x < y then x else y) else group[n]
  }

  lemma {:induction false} JoinedLabels(g: Graph, done: set<(PortRef, PortRef)>, group: map<Name, nat>, l: (PortRef, PortRef))
    requires WellFormed(g) && l in g.links && Labelled(g, done, group)
    ensures Labelled(g, done + {l}, Joined(group, group[l.0.node], group[l.1.node]))
  {
    var u, v := l.0.node, l.1.node;
    var group' := Joined(group, group[u], group[v]);
    forall s, a, b | Uncut(g, done + {l}, s) && a in s && b in group' && group'[a] == group'[b] ensures b in s {
      assert Uncut(g, done, s);
      assert l in done + {l};
      assert u in s <==> v in s;
    }
  }

  ghost predicate Owns(start: map<Name, nat>, group: map<Name, nat>, n: Name, m: Name) {
    n in group && m in group && m in start && group[m] == group[n] == start[m]
  }

  ghost predicate Owned(start: map<Name, nat>, group: map<Name, nat>, n: Name) {
    exists m :: Owns(start, group, n, m)
  }

  /** A label is the least of those its holders started with. */
  ghost predicate Least(start: map<Name, nat>, group: map<Name, nat>) {
    && start.Keys == group.Keys
    && (forall n | n in group :: group[n] <= start[n])
    && forall n {:trigger Owned(start, group, n)} | n in group :: Owned(start, group, n)
  }

  lemma {:induction false} JoinedOwner(start: map<Name, nat>, group: map<Name, nat>, u: Name, v: Name, n: Name)
    requires Least(start, group) && u in group && v in group && n in group
    ensures Owned(start, Joined(group, group[u], group[v]), n)
  {
    var a := if group[n] != group[u] && group[n] != group[v] then n else if group[u] < group[v] then u else v;
    assert Owned(start, group, a);
    var m :| Owns(start, group, a, m);
    assert Owns(start, Joined(group, group[u], group[v]), n, m);
  }

  lemma {:induction false} JoinedLeast(start: map<Name, nat>, group: map<Name, nat>, u: Name, v: Name)
    requires Least(start, group) && u in group && v in group
    ensures Least(start, Joined(group, group[u], group[v]))
  {
    forall n | n in group ensures Owned(start, Joined(group, group[u], group[v]), n) {
      JoinedOwner(start, group, u, v, n);
    }
  }

  method JoinLabels(group: map<Name, nat>, x: nat, y: nat) returns (group': map<Name, nat>)
    ensures group' == Joined(group, x, y)
  {
    var m := if x < y then x else y;
    group' := group;
    var rest := group.Keys;
    while rest != {}
      invariant rest <= group.Keys && group'.Keys == group.Keys
      invariant forall n | n in group :: group'[n] == if n in rest then group[n] else Joined(group, x, y)[n]
      decreases |rest|
    {
      var n :| n in rest;
      rest := rest - {n};
      if group'[n] == x || group'[n] == y {
        group' := group'[n := m];
      }
    }
  }

  method FreshLabels(g: Graph) returns (group: map<Name, nat>)
    ensures group.Keys == Nodes(g)
    ensures forall a, b | a in group && b in group && group[a] == group[b] :: a == b
  {
    group := map[];
    var rest := Nodes(g);
    var idx: nat := 0;
    while rest != {}
      invariant rest <= Nodes(g) && group.Keys == Nodes(g) - rest
      invariant forall a | a in group :: group[a] < idx
      invariant forall a, b | a in group && b in group && group[a] == group[b] :: a == b
      decreases |rest|
    {
      var n :| n in rest;
      rest, group, idx := rest - {n}, group[n := idx], idx + 1;
    }
  }

  lemma {:induction false} OneLabelIffConnected(g: Graph, group: map<Name, nat>, first: Name)
    requires WellFormed(g) && Labelled(g, g.links, group) && first in group
    ensures Connected(g) <==> Class(group, group[first]) == Nodes(g)
  {
    var c := Class(group, group[first]);
    assert Uncut(g, g.links, c);
    assert first in c;
    if c == Nodes(g) {
      forall s | Uncut(g, g.links, s) ensures s == {} || s == Nodes(g) {
        if s != {} {
          var a :| a in s;
          assert a in c;
          assert forall b | b in Nodes(g) :: b in c && b in s;
        }
      }
    }
  }

  lemma {:induction false} FreshIsLabelled(g: Graph, group: map<Name, nat>)
    requires group.Keys == Nodes(g)
    requires forall a, b | a in group && b in group && group[a] == group[b] :: a == b
    ensures Labelled(g, {}, group)
  {
  }

  lemma {:induction false} FreshIsLeast(group: map<Name, nat>)
    requires forall a, b | a in group && b in group && group[a] == group[b] :: a == b
    ensures Least(group, group)
  {
    forall n | n in group ensures Owned(group, group, n) {
      assert Owns(group, group, n, n);
    }
  }

  method FollowLink(g: Graph, ghost start: map<Name, nat>, ghost done: set<(PortRef, PortRef)>, group: map<Name, nat>,
                    l: (PortRef, PortRef))
    returns (group': map<Name, nat>)
    requires WellFormed(g) && l in g.links && Labelled(g, done, group) && Least(start, group)
    ensures Labelled(g, done + {l}, group') && Least(start, group')
  {
    JoinedLabels(g, done, group, l);
    JoinedLeast(start, group, l.0.node, l.1.node);
    group' := JoinLabels(group, group[l.0.node], group[l.1.node]);
  }

  ghost predicate Divides<T>(all: set<T>, done: set<T>, rest: set<T>) {
    all == done + rest
  }

  lemma {:induction false} DividesMove<T>(all: set<T>, done: set<T>, rest: set<T>, x: T)
    requires Divides(all, done, rest) && x in rest
    ensures x in all && Divides(all, done + {x}, rest - {x}) && |rest - {x}| < |rest|
  {
    assert done + {x} + (rest - {x}) == done + rest;
  }

  lemma {:induction false} DividesEnd<T>(all: set<T>, done: set<T>)
    requires Divides(all, done, {})
    ensures all == done
  {
  }

  method GroupNodes(g: Graph) returns (ghost start: map<Name, nat>, group: map<Name, nat>)
    requires WellFormed(g)
    ensures Labelled(g, g.links, group) && Least(start, group)
  {
    group := FreshLabels(g);
    start := group;
    FreshIsLabelled(g, group);
    FreshIsLeast(group);
    var rest := g.links;
    ghost var done: set<(PortRef, PortRef)> := {};
    while rest != {}
      invariant Divides(g.links, done, rest) && Labelled(g, done, group) && Least(start, group)
      decreases |rest|
    {
      var l :| l in rest;
      DividesMove(g.links, done, rest, l);
      group := FollowLink(g, start, done, group, l);
      rest, done := rest - {l}, done + {l};
    }
    DividesEnd(g.links, done);
  }

  /** Are all nodes one piece? An empty graph is, trivially. */
  method IsAllNodeConnect(g: Graph) returns (ok: bool)
    requires WellFormed(g)
    ensures ok <==> Connected(g)
  {
    ghost var start: map<Name, nat>;
    var group: map<Name, nat>;
    start, group := GroupNodes(g);
    if group == map[] {
      return true;
    }
    var first :| first in group;
    OneLabelIffConnected(g, group, first);
    ok := AllLabelled(group, group[first]);
  }

  method AllLabelled(group: map<Name, nat>, k: nat) returns (ok: bool)
    ensures ok <==> Class(group, k) == group.Keys
  {
    var rest := group.Keys;
    ok := true;
    while rest != {}
      invariant rest <= group.Keys
      invariant ok <==> forall n | n in group && n !in rest :: group[n] == k
      decreases |rest|
    {
      var n :| n in rest;
      rest := rest - {n};
      ok := ok && group[n] == k;
    }
  }

  // ----- the same, by paths -----

  ghost predicate Linked(done: set<(PortRef, PortRef)>, a: Name, b: Name) {
    exists l :: l in done && ((l.0.node == a && l.1.node == b) || (l.0.node == b && l.1.node == a))
  }

  /** `p` leads from `a` to `b` along links taken in either direction. */
  ghost predicate Joins(done: set<(PortRef, PortRef)>, p: seq<Name>, a: Name, b: Name) {
    p != [] && p[0] == a && p[|p| - 1] == b && forall i | 0 <= i < |p| - 1 :: Linked(done, p[i], p[i + 1])
  }

  lemma {:induction false} JoinsExtend(done: set<(PortRef, PortRef)>, p: seq<Name>, a: Name, b: Name, c: Name)
    requires Joins(done, p, a, b) && Linked(done, b, c)
    ensures Joins(done, p + [c], a, c)
  {
  }

  ghost function Reach(g: Graph, done: set<(PortRef, PortRef)>, a: Name): set<Name> {
    set b | b in Nodes(g) && exists p :: Joins(done, p, a, b)
  }

  lemma {:induction false} ReachCrosses(g: Graph, done: set<(PortRef, PortRef)>, a: Name, b: Name, c: Name)
    requires b in Reach(g, done, a) && c in Nodes(g) && Linked(done, b, c)
    ensures c in Reach(g, done, a)
  {
    var p :| Joins(done, p, a, b);
    JoinsExtend(done, p, a, b, c);
  }

  lemma {:induction false} ReachIsUncut(g: Graph, done: set<(PortRef, PortRef)>, a: Name)
    requires WellFormed(g) && done <= g.links && a in Nodes(g)
    ensures Uncut(g, done, Reach(g, done, a)) && a in Reach(g, done, a)
  {
    forall l | l in done ensures l.0.node in Reach(g, done, a) <==> l.1.node in Reach(g, done, a) {
      assert Linked(done, l.0.node, l.1.node) && Linked(done, l.1.node, l.0.node);
      if l.0.node in Reach(g, done, a) {
        ReachCrosses(g, done, a, l.0.node, l.1.node);
      } else if l.1.node in Reach(g, done, a) {
        ReachCrosses(g, done, a, l.1.node, l.0.node);
      }
    }
    assert Joins(done, [a], a, a);
  }

  lemma {:induction false} PathKeepsGroup(g: Graph, done: set<(PortRef, PortRef)>, group: map<Name, nat>, p: seq<Name>)
    requires WellFormed(g) && done <= g.links && Labelled(g, done, group)
    requires p != [] && p[0] in group && forall i | 0 <= i < |p| - 1 :: Linked(done, p[i], p[i + 1])
    ensures p[|p| - 1] in group && group[p[|p| - 1]] == group[p[0]]
    decreases |p|
  {
    var n := |p| - 1;
    if n > 0 {
      PathKeepsGroup(g, done, group, p[..n]);
      assert Linked(done, p[n - 1], p[n]);
    }
  }

  /** After any links have been followed, two nodes carry one label exactly when those links join them. */
  lemma {:induction false} SameGroupIffJoined(g: Graph, done: set<(PortRef, PortRef)>, group: map<Name, nat>, a: Name, b: Name)
    requires WellFormed(g) && done <= g.links && Labelled(g, done, group) && a in group && b in group
    ensures group[a] == group[b] <==> exists p :: Joins(done, p, a, b)
  {
    if group[a] == group[b] {
      ReachIsUncut(g, done, a);
      assert b in Reach(g, done, a);
    }
    if p :| Joins(done, p, a, b) {
      PathKeepsGroup(g, done, group, p);
    }
  }
}
