/** Auto-parallelism as a rewriting of the source list. */
module FoldedSource {
  import opened Primitives
  import opened Bytecode
  import opened Folding
  import opened Lowering
  import opened FoldEquivalence

  // -------------------------------------------------- the source that folding compiles

  /** A route body with the runs of its list gathered; one node on its own is no list. */
  ghost function GatheredBody(w: World, body: Body): Body {
    match body
    case ListBody(nodes) => ListBody(Blocks(w, nodes, 0))
    case SingleBody(_) => body
  }

  ghost function GatheredRoutes(w: World, routes: seq<(string, Body)>): (r: seq<(string, Body)>)
    ensures |r| == |routes|
  {
    if routes == [] then [] else [(routes[0].0, GatheredBody(w, routes[0].1))] + GatheredRoutes(w, routes[1..])
  }

  ghost function GatheredNode(w: World, node: Node): Node {
    if node.RouteDict? then RouteDict(GatheredRoutes(w, node.routes)) else node
  }

  ghost function GatheredNodes(w: World, nodes: seq<Node>): (r: seq<Node>)
    ensures |r| == |nodes| && forall i :: 0 <= i < |nodes| ==> r[i] == GatheredNode(w, nodes[i])
  {
    if nodes == [] then [] else [GatheredNode(w, nodes[0])] + GatheredNodes(w, nodes[1..])
  }

  /** The list a user would have written by hand: every maximal run a Parallel block, in route bodies too. */
  ghost function FoldedSource(w: World, nodes: seq<Node>): seq<Node> {
    GatheredNodes(w, Blocks(w, nodes, 0))
  }

  lemma SingleFolds(w: World, node: Node)
    ensures Fold(w, [node]) == Ok([node])
  {
    BodyCleanExactly(w, SingleBody(node));
    FoldIs(w, [node]);
    var one := [node];
    assert NextStart(w, one, 0) == 1 && Blocks(w, one, 1) == [];
    assert Blocks(w, one, 0) == [Gathered(one, 0, 1)] + [] == one;
    assert Unwrap(SingleBody(node)) == one;
  }

  lemma RouteFolds(w: World, route: (string, Body), t: Table)
    requires BodyNeverTrips(w, route.1)
    ensures ResolveRoute(w, true, route, t) == ResolveRoute(w, false, (route.0, GatheredBody(w, route.1)), t)
  {
    match route.1
    case ListBody(nodes) => FoldIs(w, nodes);
    case SingleBody(node) => SingleFolds(w, node);
  }

  lemma {:induction false} RoutesFoldTo(w: World, routes: seq<(string, Body)>, t: Table)
    requires RoutesNeverTrip(w, routes)
    ensures ResolveRoutes(w, true, routes, t) == ResolveRoutes(w, false, GatheredRoutes(w, routes), t)
    decreases |routes|
  {
    if routes != [] {
      var gathered := GatheredRoutes(w, routes);
      RouteFolds(w, routes[0], t);
      assert gathered[1..] == GatheredRoutes(w, routes[1..]);
      assert forall i :: 0 <= i < |routes[1..]| ==> routes[1..][i] == routes[i + 1];
      var first := ResolveRoute(w, true, routes[0], t);
      if first.Ok? {
        RoutesFoldTo(w, routes[1..], first.value.1);
      }
    }
  }

  ghost predicate DictsNeverTrip(w: World, nodes: seq<Node>) {
    forall i :: 0 <= i < |nodes| && nodes[i].RouteDict? ==> RoutesNeverTrip(w, nodes[i].routes)
  }

  lemma {:induction false} NodesFoldTo(w: World, nodes: seq<Node>, t: Table)
    requires DictsNeverTrip(w, nodes)
    ensures Resolve(w, true, nodes, t) == Resolve(w, false, GatheredNodes(w, nodes), t)
    decreases |nodes|
  {
    if nodes != [] {
      var n := Taken(nodes);
      HeadFoldsTo(w, nodes, t);
      GatheredDrop(w, nodes, n);
      assert forall i :: 0 <= i < |nodes[n..]| ==> nodes[n..][i] == nodes[i + n];
      var first := ResolveHead(w, true, nodes, t);
      if first.Ok? {
        NodesFoldTo(w, nodes[n..], first.value.1);
      }
    }
  }

  lemma HeadFoldsTo(w: World, nodes: seq<Node>, t: Table)
    requires nodes != [] && DictsNeverTrip(w, nodes)
    ensures Taken(GatheredNodes(w, nodes)) == Taken(nodes)
    ensures ResolveHead(w, true, nodes, t) == ResolveHead(w, false, GatheredNodes(w, nodes), t)
  {
    if Taken(nodes) == 2 {
      var s := ResolveStage(w, nodes[0].fn, t);
      if s.Ok? {
        RoutesFoldTo(w, nodes[1].routes, s.value.1);
      }
    }
  }

  lemma GatheredDrop(w: World, nodes: seq<Node>, n: nat)
    requires n <= |nodes|
    ensures GatheredNodes(w, nodes)[n..] == GatheredNodes(w, nodes[n..])
  {
  }

  /** Gathering makes no dict, and moves none. */
  lemma {:induction false} BlocksKeepDicts(w: World, nodes: seq<Node>, h: nat)
    requires DictsNeverTrip(w, nodes)
    ensures DictsNeverTrip(w, Blocks(w, nodes, h))
    decreases |nodes| - h
  {
    if h < |nodes| {
      var e := NextStart(w, nodes, h);
      BlocksKeepDicts(w, nodes, e);
      var blocks, rest := Blocks(w, nodes, h), Blocks(w, nodes, e);
      forall i | 0 <= i < |blocks| && blocks[i].RouteDict?
        ensures RoutesNeverTrip(w, blocks[i].routes)
      {
        assert i > 0 ==> blocks[i] == rest[i - 1];
      }
    }
  }

  /**
   * Compiling with auto-parallelism is compiling, without it, the list in which every maximal run of
   * neighbouring disjoint stages has been written as a Parallel block: the same nodes, ids and errors.
   */
  lemma AutoCompilesTheFoldedSource(w: World, nodes: seq<Node>)
    requires FoldsCleanly(w, nodes)
    ensures Lower(w, true, nodes) == Lower(w, false, FoldedSource(w, nodes))
  {
    FoldIs(w, nodes);
    BlocksKeepDicts(w, nodes, 0);
    NodesFoldTo(w, Blocks(w, nodes, 0), map[]);
  }
}
