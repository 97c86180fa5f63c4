/** A compilation error names something that is wrong with the source. */
module CompileErrors {
  import opened Primitives
  import opened Bytecode
  import opened Folding
  import opened Lowering
  import SourceForm

  /** Two branches declare to write a common key. */
  ghost predicate WritesMeet(w: World, fns: seq<Fn>) {
    exists i, j :: 0 <= i < j < |fns| && SourceForm.BothWrite(w, fns[i], fns[j])
  }

  /** What may be wrong with a node of a route body, or with a top-level node that is no dict. */
  ghost predicate ItemDefect(w: World, node: Node, e: CompileError) {
    match node
    case StageNode(fn) => e == NotAStage && !w.attrs(fn).isStage
    case ParallelNode(fns, _) =>
      || (e == NotAStage && exists fn :: fn in fns && !w.attrs(fn).isStage)
      || (e == WriteConflict && WritesMeet(w, fns))
    case RouteDict(_) => e == NotAStage
  }

  ghost predicate BodyDefect(w: World, route: (string, Body), e: CompileError) {
    match route.1
    case ListBody(nodes) =>
      (nodes == [] && e == EmptyRouteBody(route.0)) || exists n :: n in nodes && ItemDefect(w, n, e)
    case SingleBody(node) => ItemDefect(w, node, e)
  }

  ghost predicate RoutesDefect(w: World, routes: seq<(string, Body)>, e: CompileError) {
    exists r :: r in routes && BodyDefect(w, r, e)
  }

  /** What is wrong at position `i`: a dict with no stage before it, a route of a dict, or the node itself. */
  ghost predicate DefectAt(w: World, nodes: seq<Node>, e: CompileError, i: int)
    requires 0 <= i < |nodes|
  {
    if nodes[i].RouteDict? then
      || (e == RouteDictWithoutRouter && (i == 0 || !nodes[i - 1].StageNode?))
      || RoutesDefect(w, nodes[i].routes, e)
    else ItemDefect(w, nodes[i], e)
  }

  ghost predicate Defect(w: World, nodes: seq<Node>, e: CompileError) {
    exists i :: 0 <= i < |nodes| && DefectAt(w, nodes, e, i)
  }

  lemma {:induction false} BranchesErr(w: World, fns: seq<Fn>, t: Table)
    requires ResolveBranches(w, fns, t).Err?
    ensures ResolveBranches(w, fns, t) == Err(NotAStage) && exists fn :: fn in fns && !w.attrs(fn).isStage
  {
    var first := ResolveStage(w, fns[0], t);
    if first.Ok? {
      BranchesErr(w, fns[1..], first.value.1);
      var fn :| fn in fns[1..] && !w.attrs(fn).isStage;
      assert fn in fns;
    } else {
      assert fns[0] in fns;
    }
  }

  lemma SimpleErr(w: World, node: Node, t: Table)
    requires ResolveSimple(w, node, t).Err?
    ensures ItemDefect(w, node, ResolveSimple(w, node, t).error)
  {
    if node.ParallelNode? {
      var bs := ResolveBranches(w, node.branches, t);
      if bs.Err? {
        BranchesErr(w, node.branches, t);
      } else {
        BranchesStable(w, node.branches, t);
        var i, j :| 0 <= i < j < |bs.value.0| && PairConflicts(w, bs.value.0[i], bs.value.0[j]);
        var x, y := w.attrs(node.branches[i]).writeKeys, w.attrs(node.branches[j]).writeKeys;
        var k :| k in x.value * y.value;
        assert SourceForm.BothWrite(w, node.branches[i], node.branches[j]);
      }
    }
  }

  lemma {:induction false} BodyErr(w: World, nodes: seq<Node>, t: Table)
    requires ResolveBody(w, nodes, t).Err?
    ensures exists n :: n in nodes && ItemDefect(w, n, ResolveBody(w, nodes, t).error)
  {
    var first := ResolveSimple(w, nodes[0], t);
    if first.Ok? {
      BodyErr(w, nodes[1..], first.value.1);
      var n :| n in nodes[1..] && ItemDefect(w, n, ResolveBody(w, nodes, t).error);
      assert n in nodes;
    } else {
      SimpleErr(w, nodes[0], t);
      assert nodes[0] in nodes;
    }
  }

  lemma RouteErr(w: World, route: (string, Body), t: Table)
    requires ResolveRoute(w, false, route, t).Err?
    ensures BodyDefect(w, route, ResolveRoute(w, false, route, t).error)
  {
    var nodes := Unwrap(route.1);
    if nodes != [] {
      BodyErr(w, nodes, t);
    }
  }

  lemma {:induction false} RoutesErr(w: World, routes: seq<(string, Body)>, t: Table)
    requires ResolveRoutes(w, false, routes, t).Err?
    ensures RoutesDefect(w, routes, ResolveRoutes(w, false, routes, t).error)
  {
    var first := ResolveRoute(w, false, routes[0], t);
    if first.Ok? {
      RoutesErr(w, routes[1..], first.value.1);
      var r :| r in routes[1..] && BodyDefect(w, r, ResolveRoutes(w, false, routes, t).error);
      assert r in routes;
    } else {
      RouteErr(w, routes[0], t);
      assert routes[0] in routes;
    }
  }

  lemma HeadErr(w: World, nodes: seq<Node>, t: Table)
    requires nodes != [] && ResolveHead(w, false, nodes, t).Err?
    ensures Defect(w, nodes, ResolveHead(w, false, nodes, t).error)
  {
    var e := ResolveHead(w, false, nodes, t).error;
    if Taken(nodes) == 2 {
      var s := ResolveStage(w, nodes[0].fn, t);
      if s.Ok? {
        RoutesErr(w, nodes[1].routes, s.value.1);
        assert DefectAt(w, nodes, e, 1);
      } else {
        assert DefectAt(w, nodes, e, 0);
      }
    } else {
      if !nodes[0].RouteDict? {
        SimpleErr(w, nodes[0], t);
      }
      assert DefectAt(w, nodes, e, 0);
    }
  }

  /** What is wrong behind the head is wrong in the whole: the head never ends with a router that lacks its dict. */
  lemma DefectBehind(w: World, nodes: seq<Node>, e: CompileError, n: nat)
    requires nodes != [] && n == Taken(nodes) && Defect(w, nodes[n..], e)
    ensures Defect(w, nodes, e)
  {
    var i :| 0 <= i < |nodes[n..]| && DefectAt(w, nodes[n..], e, i);
    assert nodes[n..][i] == nodes[n + i] && (i > 0 ==> nodes[n..][i - 1] == nodes[n + i - 1]);
    assert DefectAt(w, nodes, e, n + i);
  }

  lemma {:induction false} NodesErr(w: World, nodes: seq<Node>, t: Table)
    requires Resolve(w, false, nodes, t).Err?
    ensures Defect(w, nodes, Resolve(w, false, nodes, t).error)
    decreases |nodes|
  {
    var first := ResolveHead(w, false, nodes, t);
    if first.Ok? {
      NodesErr(w, nodes[Taken(nodes)..], first.value.1);
      DefectBehind(w, nodes, Resolve(w, false, nodes, t).error, Taken(nodes));
    } else {
      HeadErr(w, nodes, t);
    }
  }

  /** Without auto-parallelism every error is a true word about the source; the TypeError is never raised. */
  lemma ErrorsAreReal(w: World, nodes: seq<Node>)
    requires Lower(w, false, nodes).Err?
    ensures Defect(w, nodes, Lower(w, false, nodes).error) && Lower(w, false, nodes).error != UndeclaredSide
  {
    NodesErr(w, nodes, map[]);
  }
}
