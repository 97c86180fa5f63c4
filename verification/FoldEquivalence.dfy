/** The whole pipeline, compiled with and without auto-parallelism, is the same pipeline. */
module FoldEquivalence {
  import opened Primitives
  import opened Contexts
  import opened Bytecode
  import Naming
  import opened Folding
  import opened Lowering
  import opened Runs
  import opened TreeSemantics
  import opened Vm
  import Correctness
  import opened AutoParallel

  // --------------------------------------------------- groupings of resolved nodes

  /** The head of `a` is a run of stages that a Parallel block with the same ids may replace. */
  ghost predicate GroupOf(w: World, a: seq<Simple>, branches: seq<(string, Fn)>) {
    && 2 <= |branches| <= |a|
    && a[..|branches|] == StagesOf(branches)
    && (forall i, j :: 0 <= i < j < |branches| ==> Disjoint(w, branches[i].1, branches[j].1))
    && (forall i :: 0 <= i < |branches| ==> Declared(w, branches[i].1))
  }

  /** `b` is the body `a` with some runs of disjoint stages replaced by Parallel blocks. */
  ghost predicate Coarser(w: World, a: seq<Simple>, b: seq<Simple>)
    decreases |b|
  {
    if b == [] then a == []
    else
      || (a != [] && b[0] == a[0] && Coarser(w, a[1..], b[1..]))
      || (b[0].Block? && b[0].mode.Parallel? && GroupOf(w, a, b[0].branches)
          && Coarser(w, a[|b[0].branches|..], b[1..]))
  }

  ghost predicate CoarserRoutes(w: World, a: seq<RouteBody>, b: seq<RouteBody>) {
    && |a| == |b|
    && forall i :: 0 <= i < |a| ==> a[i].name == b[i].name && Coarser(w, a[i].body, b[i].body)
  }

  ghost predicate CoarserNode(w: World, a: RNode, b: RNode) {
    match (a, b)
    case (Plain(x), Plain(y)) => x == y
    case (Router(nid, fn, routes), Router(nid', fn', routes')) =>
      nid == nid' && fn == fn' && CoarserRoutes(w, routes, routes')
    case _ => false
  }

  ghost predicate NodeGroupOf(w: World, a: seq<RNode>, branches: seq<(string, Fn)>) {
    |branches| <= |a| && a[..|branches|] == Lift(StagesOf(branches)) && GroupOf(w, StagesOf(branches), branches)
  }

  ghost predicate CoarserNodes(w: World, a: seq<RNode>, b: seq<RNode>)
    decreases |b|
  {
    if b == [] then a == []
    else
      || (a != [] && CoarserNode(w, a[0], b[0]) && CoarserNodes(w, a[1..], b[1..]))
      || (b[0].Plain? && b[0].simple.Block? && b[0].simple.mode.Parallel?
          && NodeGroupOf(w, a, b[0].simple.branches)
          && CoarserNodes(w, a[|b[0].simple.branches|..], b[1..]))
  }

  // --------------------------------------------------------- honesty of a pipeline

  /** Every stage that declares both its reads and its writes keeps its declaration under its node id. */
  ghost predicate HonestSimple(w: World, s: Simple) {
    s.Stage? && BothDeclared(w, s.fn) ==> Honest(w, s.nid, s.fn)
  }

  /** Both sides are declared, and not both empty; no other stage is ever folded. */
  ghost predicate BothDeclared(w: World, fn: Fn) {
    w.attrs(fn).readKeys.Some? && w.attrs(fn).writeKeys.Some? && Declared(w, fn)
  }

  ghost predicate HonestBody(w: World, body: seq<Simple>) {
    forall i :: 0 <= i < |body| ==> HonestSimple(w, body[i])
  }

  /** Routers are never folded, and user-written Parallel blocks are left alone: nothing is asked of them. */
  ghost predicate HonestNode(w: World, r: RNode) {
    match r
    case Plain(s) => HonestSimple(w, s)
    case Router(_, _, routes) => forall i :: 0 <= i < |routes| ==> HonestBody(w, routes[i].body)
  }

  ghost predicate HonestNodes(w: World, rs: seq<RNode>) {
    forall i :: 0 <= i < |rs| ==> HonestNode(w, rs[i])
  }

  // ----------------------------------------------------------- folding keeps names

  /** Compiling the two lists fails with the same error, or gives the same table and related nodes. */
  ghost predicate SameBodies(w: World, a: Compiled<seq<Simple>>, b: Compiled<seq<Simple>>) {
    match (a, b)
    case (Ok(x), Ok(y)) => x.1 == y.1 && Coarser(w, x.0, y.0)
    case (Err(e), Err(e')) => e == e'
    case _ => false
  }

  ghost predicate SameRoutes(w: World, a: Compiled<seq<RouteBody>>, b: Compiled<seq<RouteBody>>) {
    match (a, b)
    case (Ok(x), Ok(y)) => x.1 == y.1 && CoarserRoutes(w, x.0, y.0)
    case (Err(e), Err(e')) => e == e'
    case _ => false
  }

  ghost predicate SameHeads(w: World, a: Compiled<RNode>, b: Compiled<RNode>) {
    match (a, b)
    case (Ok(x), Ok(y)) => x.1 == y.1 && CoarserNode(w, x.0, y.0)
    case (Err(e), Err(e')) => e == e'
    case _ => false
  }

  ghost predicate SamePipelines(w: World, a: Compiled<seq<RNode>>, b: Compiled<seq<RNode>>) {
    match (a, b)
    case (Ok(x), Ok(y)) => x.1 == y.1 && CoarserNodes(w, x.0, y.0)
    case (Err(e), Err(e')) => e == e'
    case _ => false
  }

  /** Stages registered one by one get the ids they get as the branches of one block. */
  lemma {:induction false} StagesResolve(w: World, nodes: seq<Node>, fns: seq<Fn>, t: Table)
    requires |fns| <= |nodes| && forall i :: 0 <= i < |fns| ==> nodes[i] == StageNode(fns[i])
    ensures var whole, bs := ResolveBody(w, nodes, t), ResolveBranches(w, fns, t);
            if bs.Err? then whole == Err(bs.error)
            else
              var rest := ResolveBody(w, nodes[|fns|..], bs.value.1);
              whole == if rest.Err? then rest else Ok((StagesOf(bs.value.0) + rest.value.0, rest.value.1))
    decreases |fns|
  {
    if fns == [] {
      assert nodes[0..] == nodes;
      var rest := ResolveBody(w, nodes, t);
      if rest.Ok? {
        assert StagesOf([]) + rest.value.0 == rest.value.0;
      }
    } else {
      var s := ResolveStage(w, fns[0], t);
      if s.Ok? {
        StagesResolve(w, nodes[1..], fns[1..], s.value.1);
        assert nodes[1..][|fns[1..]|..] == nodes[|fns|..];
        var bs := ResolveBranches(w, fns[1..], s.value.1);
        StagesOfCons(s.value.0, fns[0], bs);
        assert ResolveSimple(w, nodes[0], t) == Ok((Stage(s.value.0, fns[0]), s.value.1));
        if bs.Ok? {
          var rest := ResolveBody(w, nodes[|fns|..], bs.value.1);
          if rest.Ok? {
            AppendAssoc([Stage(s.value.0, fns[0])], StagesOf(bs.value.0), rest.value.0);
          }
        }
      }
    }
  }

  lemma StagesOfCons(nid: string, fn: Fn, rest: Compiled<seq<(string, Fn)>>)
    ensures rest.Ok? ==> StagesOf([(nid, fn)] + rest.value.0) == [Stage(nid, fn)] + StagesOf(rest.value.0)
  {
    if rest.Ok? {
      assert ([(nid, fn)] + rest.value.0)[1..] == rest.value.0;
    }
  }

  /** A fold raised the TypeError. */
  ghost predicate Tripped<T>(b: Compiled<T>) {
    b == Err(UndeclaredSide)
  }

  /** A folded group never trips the write-conflict check. */
  lemma GroupCompiles(w: World, fns: seq<Fn>, t: Table)
    requires PairwiseDisjoint(w, fns) && ResolveBranches(w, fns, t).Ok?
    ensures !DeclareConflict(w, ResolveBranches(w, fns, t).value.0)
  {
    BranchesStable(w, fns, t);
    var bs := ResolveBranches(w, fns, t).value.0;
    forall i, j | 0 <= i < j < |bs|
      ensures !PairConflicts(w, bs[i], bs[j])
    {
      assert Disjoint(w, fns[i], fns[j]);
    }
  }

  lemma ResolvedGroup(w: World, fns: seq<Fn>, t: Table, rest: seq<Simple>)
    requires ResolveBranches(w, fns, t).Ok? && PairwiseDisjoint(w, fns) && 2 <= |fns|
    requires forall i :: 0 <= i < |fns| ==> Declared(w, fns[i])
    ensures var bs := ResolveBranches(w, fns, t).value.0;
            |bs| == |fns| && GroupOf(w, StagesOf(bs) + rest, bs) && (StagesOf(bs) + rest)[|bs|..] == rest
  {
    BranchesStable(w, fns, t);
    var bs := ResolveBranches(w, fns, t).value.0;
    forall i, j | 0 <= i < j < |bs|
      ensures Disjoint(w, bs[i].1, bs[j].1)
    {
      assert Disjoint(w, fns[i], fns[j]);
    }
    assert (StagesOf(bs) + rest)[..|bs|] == StagesOf(bs);
  }

  /** Folding a route body changes neither its node ids nor its compile errors. */
  lemma {:induction false} BodyFolds(w: World, nodes: seq<Node>, out: seq<Node>, t: Table)
    requires Grouped(w, nodes, out)
    ensures SameBodies(w, ResolveBody(w, nodes, t), ResolveBody(w, out, t))
    decreases |out|
  {
    if out != [] {
      if nodes != [] && out[0] == nodes[0] && Grouped(w, nodes[1..], out[1..]) {
        var first := ResolveSimple(w, nodes[0], t);
        if first.Ok? {
          BodyFolds(w, nodes[1..], out[1..], first.value.1);
          BodyHead(w, first.value.0,
                   ResolveBody(w, nodes[1..], first.value.1), ResolveBody(w, out[1..], first.value.1));
        }
      } else {
        var fns := out[0].branches;
        StagesResolve(w, nodes, fns, t);
        var bs := ResolveBranches(w, fns, t);
        if bs.Ok? {
          GroupCompiles(w, fns, t);
          BodyFolds(w, nodes[|fns|..], out[1..], bs.value.1);
          BodyGroup(w, fns, t, ResolveBody(w, nodes[|fns|..], bs.value.1), ResolveBody(w, out[1..], bs.value.1));
        }
      }
    }
  }

  lemma BodyHead(w: World, s: Simple, a: Compiled<seq<Simple>>, b: Compiled<seq<Simple>>)
    requires SameBodies(w, a, b)
    ensures a.Ok? ==> Coarser(w, [s] + a.value.0, [s] + b.value.0)
  {
    if a.Ok? {
      assert ([s] + a.value.0)[1..] == a.value.0 && ([s] + b.value.0)[1..] == b.value.0;
    }
  }

  lemma BodyGroup(w: World, fns: seq<Fn>, t: Table, a: Compiled<seq<Simple>>, b: Compiled<seq<Simple>>)
    requires SameBodies(w, a, b)
    requires ResolveBranches(w, fns, t).Ok? && PairwiseDisjoint(w, fns) && 2 <= |fns|
    requires forall i :: 0 <= i < |fns| ==> Declared(w, fns[i])
    ensures var bs := ResolveBranches(w, fns, t).value.0;
            a.Ok? ==> Coarser(w, StagesOf(bs) + a.value.0, [Block(bs, Parallel)] + b.value.0)
  {
    if a.Ok? {
      var bs := ResolveBranches(w, fns, t).value.0;
      ResolvedGroup(w, fns, t, a.value.0);
      var y := [Block(bs, Parallel)] + b.value.0;
      assert y[1..] == b.value.0 && y[0] == Block(bs, Parallel);
    }
  }

  /** Folding raises no TypeError anywhere in these routes. */
  ghost predicate RoutesFold(w: World, routes: seq<(string, Body)>) {
    forall i :: 0 <= i < |routes| ==> Fold(w, Unwrap(routes[i].1)).Ok?
  }

  /** Two compilations of the same routes differ only in that the folding one may raise the TypeError. */
  lemma {:induction false} RoutesFolded(w: World, routes: seq<(string, Body)>, t: Table)
    ensures var a, b := ResolveRoutes(w, false, routes, t), ResolveRoutes(w, true, routes, t);
            (SameRoutes(w, a, b) || Tripped(b)) && (RoutesFold(w, routes) ==> SameRoutes(w, a, b))
    decreases |routes|
  {
    if routes != [] {
      var nodes := Unwrap(routes[0].1);
      if nodes != [] {
        var folded := Fold(w, nodes);
        FoldRaisesExactly(w, nodes);
        if folded.Ok? {
          FoldGroups(w, nodes);
          BodyFolds(w, nodes, folded.value, t);
          var first := ResolveBody(w, nodes, t);
          if first.Ok? {
            RoutesFolded(w, routes[1..], first.value.1);
            RoutesHead(w, routes[0].0, first.value.0, ResolveBody(w, folded.value, t).value.0,
                       ResolveRoutes(w, false, routes[1..], first.value.1),
                       ResolveRoutes(w, true, routes[1..], first.value.1));
          }
        }
      }
    }
  }

  lemma RoutesHead(w: World, name: string, x: seq<Simple>, y: seq<Simple>,
                   a: Compiled<seq<RouteBody>>, b: Compiled<seq<RouteBody>>)
    requires Coarser(w, x, y)
    ensures SameRoutes(w, a, b) && a.Ok? ==>
              CoarserRoutes(w, [RouteBody(name, x)] + a.value.0, [RouteBody(name, y)] + b.value.0)
  {
  }

  // ------------------------------------------------------------ the top level

  ghost predicate AllRoutesFold(w: World, nodes: seq<Node>) {
    forall i :: 0 <= i < |nodes| && nodes[i].RouteDict? ==> RoutesFold(w, nodes[i].routes)
  }

  lemma HeadFolds(w: World, nodes: seq<Node>, out: seq<Node>, t: Table)
    requires nodes != [] && out != [] && out[0] == nodes[0] && Grouped(w, nodes[1..], out[1..])
    ensures Taken(nodes) == Taken(out)
    ensures Grouped(w, nodes[Taken(nodes)..], out[Taken(nodes)..])
    ensures var a, b := ResolveHead(w, false, nodes, t), ResolveHead(w, true, out, t);
            (SameHeads(w, a, b) || Tripped(b)) && (AllRoutesFold(w, nodes) ==> SameHeads(w, a, b))
  {
    if nodes[0].StageNode? && (Taken(nodes) == 2 || Taken(out) == 2) {
      assert nodes[1..] != [] && out[1..] != [];
      assert out[1..][0] == out[1] && nodes[1..][0] == nodes[1];
      if out[1] == nodes[1] && Grouped(w, nodes[1..][1..], out[1..][1..]) {
        assert nodes[1..][1..] == nodes[2..] && out[1..][1..] == out[2..];
        if nodes[1].RouteDict? {
          var s := ResolveStage(w, nodes[0].fn, t);
          if s.Ok? {
            RoutesFolded(w, nodes[1].routes, s.value.1);
          }
        }
      }
    }
  }

  /** The stages of a top-level group, resolved one by one. */
  lemma {:induction false} StagesResolveTop(w: World, nodes: seq<Node>, fns: seq<Fn>, t: Table)
    requires |fns| <= |nodes| && AllFoldable(nodes, |fns|)
    requires forall i :: 0 <= i < |fns| ==> nodes[i] == StageNode(fns[i])
    ensures var whole, bs := Resolve(w, false, nodes, t), ResolveBranches(w, fns, t);
            if bs.Err? then whole == Err(bs.error)
            else
              var rest := Resolve(w, false, nodes[|fns|..], bs.value.1);
              whole == if rest.Err? then rest else Ok((Lift(StagesOf(bs.value.0)) + rest.value.0, rest.value.1))
    decreases |fns|
  {
    if fns == [] {
      assert nodes[0..] == nodes;
      var rest := Resolve(w, false, nodes, t);
      if rest.Ok? {
        assert Lift(StagesOf([])) + rest.value.0 == rest.value.0;
      }
    } else {
      assert Foldable(nodes, 0);
      var s := ResolveStage(w, fns[0], t);
      if s.Ok? {
        TailFoldable(nodes, |fns|);
        StagesResolveTop(w, nodes[1..], fns[1..], s.value.1);
        assert nodes[1..][|fns[1..]|..] == nodes[|fns|..];
        var bs := ResolveBranches(w, fns[1..], s.value.1);
        LiftCons(s.value.0, fns[0], bs);
        assert ResolveHead(w, false, nodes, t) == Ok((Plain(Stage(s.value.0, fns[0])), s.value.1));
        if bs.Ok? {
          var rest := Resolve(w, false, nodes[|fns|..], bs.value.1);
          if rest.Ok? {
            AppendAssoc([Plain(Stage(s.value.0, fns[0]))], Lift(StagesOf(bs.value.0)), rest.value.0);
          }
        }
      }
    }
  }

  lemma TailFoldable(nodes: seq<Node>, n: nat)
    requires 1 <= n <= |nodes| && AllFoldable(nodes, n)
    ensures AllFoldable(nodes[1..], n - 1)
  {
    forall i: nat | i < n - 1
      ensures Foldable(nodes[1..], i)
    {
      assert Foldable(nodes, i + 1);
    }
  }

  lemma LiftCons(nid: string, fn: Fn, rest: Compiled<seq<(string, Fn)>>)
    ensures rest.Ok? ==>
              Lift(StagesOf([(nid, fn)] + rest.value.0)) == [Plain(Stage(nid, fn))] + Lift(StagesOf(rest.value.0))
  {
    StagesOfCons(nid, fn, rest);
    if rest.Ok? {
      assert ([Stage(nid, fn)] + StagesOf(rest.value.0))[1..] == StagesOf(rest.value.0);
    }
  }

  lemma NodesGroup(w: World, fns: seq<Fn>, t: Table, a: Compiled<seq<RNode>>, b: Compiled<seq<RNode>>)
    requires SamePipelines(w, a, b)
    requires ResolveBranches(w, fns, t).Ok? && PairwiseDisjoint(w, fns) && 2 <= |fns|
    requires forall i :: 0 <= i < |fns| ==> Declared(w, fns[i])
    ensures var bs := ResolveBranches(w, fns, t).value.0;
            a.Ok? ==> CoarserNodes(w, Lift(StagesOf(bs)) + a.value.0, [Plain(Block(bs, Parallel))] + b.value.0)
  {
    if a.Ok? {
      var bs := ResolveBranches(w, fns, t).value.0;
      ResolvedGroup(w, fns, t, []);
      assert StagesOf(bs) + [] == StagesOf(bs);
      var x, y := Lift(StagesOf(bs)) + a.value.0, [Plain(Block(bs, Parallel))] + b.value.0;
      assert y[1..] == b.value.0 && y[0] == Plain(Block(bs, Parallel));
      assert x[..|bs|] == Lift(StagesOf(bs)) && x[|bs|..] == a.value.0;
    }
  }

  lemma NodesHead(w: World, r: RNode, r': RNode, a: Compiled<seq<RNode>>, b: Compiled<seq<RNode>>)
    requires CoarserNode(w, r, r')
    ensures SamePipelines(w, a, b) && a.Ok? ==> CoarserNodes(w, [r] + a.value.0, [r'] + b.value.0)
  {
    if SamePipelines(w, a, b) && a.Ok? {
      assert ([r] + a.value.0)[1..] == a.value.0 && ([r'] + b.value.0)[1..] == b.value.0;
    }
  }

  lemma FoldsBehind(w: World, nodes: seq<Node>, n: nat)
    requires n <= |nodes| && AllRoutesFold(w, nodes)
    ensures AllRoutesFold(w, nodes[n..])
  {
    forall i | 0 <= i < |nodes[n..]| && nodes[n..][i].RouteDict?
      ensures RoutesFold(w, nodes[n..][i].routes)
    {
      assert nodes[n..][i] == nodes[n + i];
    }
  }

  /** The two compilations agree, or the folding one raises the TypeError, which it does in a route only. */
  ghost predicate Agreeing(w: World, nodes: seq<Node>, a: Compiled<seq<RNode>>, b: Compiled<seq<RNode>>) {
    (SamePipelines(w, a, b) || Tripped(b)) && (AllRoutesFold(w, nodes) ==> SamePipelines(w, a, b))
  }

  /** Folding changes neither node ids, nor the symbol table, nor any other compile error. */
  lemma {:induction false} PipelineFolds(w: World, nodes: seq<Node>, out: seq<Node>, t: Table)
    requires Grouped(w, nodes, out)
    ensures Agreeing(w, nodes, Resolve(w, false, nodes, t), Resolve(w, true, out, t))
    decreases |out|
  {
    if out != [] {
      if nodes != [] && out[0] == nodes[0] && Grouped(w, nodes[1..], out[1..]) {
        HeadFolds(w, nodes, out, t);
        var a, b := ResolveHead(w, false, nodes, t), ResolveHead(w, true, out, t);
        var n := Taken(nodes);
        if SameHeads(w, a, b) && a.Ok? {
          var a', b' := Resolve(w, false, nodes[n..], a.value.1), Resolve(w, true, out[n..], a.value.1);
          PipelineFolds(w, nodes[n..], out[n..], a.value.1);
          if AllRoutesFold(w, nodes) {
            FoldsBehind(w, nodes, n);
          }
          NodesHead(w, a.value.0, b.value.0, a', b');
        }
      } else {
        GroupFolds(w, nodes, out, t);
      }
    }
  }

  lemma GroupFolds(w: World, nodes: seq<Node>, out: seq<Node>, t: Table)
    requires out != [] && out[0].ParallelNode? && out[0].mode.Parallel? && GroupAt(w, nodes, out[0].branches)
    requires Grouped(w, nodes[|out[0].branches|..], out[1..])
    ensures Agreeing(w, nodes, Resolve(w, false, nodes, t), Resolve(w, true, out, t))
    decreases |out|, 0
  {
    var fns := out[0].branches;
    StagesResolveTop(w, nodes, fns, t);
    var bs := ResolveBranches(w, fns, t);
    if bs.Ok? {
      var n, t' := |fns|, bs.value.1;
      GroupCompiles(w, fns, t);
      PipelineFolds(w, nodes[n..], out[1..], t');
      if AllRoutesFold(w, nodes) {
        FoldsBehind(w, nodes, n);
      }
      if SamePipelines(w, Resolve(w, false, nodes[n..], t'), Resolve(w, true, out[1..], t')) {
        NodesGroup(w, fns, t, Resolve(w, false, nodes[n..], t'), Resolve(w, true, out[1..], t'));
      }
    }
  }

  // ------------------------------------------------------- folding keeps meaning

  /** The callbacks already reported have no influence on a walk. */
  lemma SimpleSame(w: World, s: Simple, f: Flow, g: Flow)
    requires f.ctx == g.ctx && f.pending == g.pending
    ensures SameButTrace(RunSimple(w, s, f), RunSimple(w, s, g))
  {
  }

  lemma {:induction false} BodyAppend(w: World, x: seq<Simple>, y: seq<Simple>, f: Flow)
    ensures var first := RunBody(w, x, f);
            RunBody(w, x + y, f) == if first.Stopped? then first else RunBody(w, y, first.flow)
  {
    if x == [] {
      assert x + y == y;
    } else {
      assert (x + y)[1..] == x[1..] + y;
      var first := RunSimple(w, x[0], f);
      if first.Ran? {
        BodyAppend(w, x[1..], y, first.flow);
      }
    }
  }

  /** The stages of a group that are honest one by one are honest as a group. */
  lemma GroupIsHonest(w: World, a: seq<Simple>, branches: seq<(string, Fn)>)
    requires GroupOf(w, a, branches) && HonestBody(w, a)
    ensures HonestGroup(w, branches)
  {
    forall i | 0 <= i < |branches|
      ensures Honest(w, branches[i].0, branches[i].1)
    {
      assert a[i] == a[..|branches|][i];
      assert if i == 0 then Disjoint(w, branches[i].1, branches[1].1) else Disjoint(w, branches[0].1, branches[i].1);
      assert HonestSimple(w, a[i]);
    }
  }

  lemma BodyGroupAhead(w: World, a: seq<Simple>, bs: seq<(string, Fn)>, rest: seq<Simple>, f: Flow, g: Flow)
    requires GroupOf(w, a, bs) && HonestBody(w, a) && rest == a[|bs|..]
    requires f.ctx == g.ctx && f.pending == g.pending
    ensures HonestBody(w, rest)
    ensures var x, y := RunBody(w, StagesOf(bs), f), RunBlock(w, bs, Parallel, g);
            SameButTrace(x, y) && RunBody(w, a, f) == if x.Stopped? then x else RunBody(w, rest, x.flow)
  {
    GroupIsHonest(w, a, bs);
    GroupSound(w, bs, f, g);
    StagesThenRest(w, a, StagesOf(bs), rest, f);
  }

  lemma StagesThenRest(w: World, a: seq<Simple>, stages: seq<Simple>, rest: seq<Simple>, f: Flow)
    requires |stages| <= |a| && a[..|stages|] == stages && rest == a[|stages|..]
    ensures var x := RunBody(w, stages, f);
            RunBody(w, a, f) == if x.Stopped? then x else RunBody(w, rest, x.flow)
  {
    BodyAppend(w, stages, rest, f);
    assert a == stages + rest;
  }

  lemma BodyGroupThenRest(w: World, a: seq<Simple>, b: seq<Simple>, f: Flow, g: Flow)
    requires b != [] && b[0].Block? && b[0].mode.Parallel?
    requires GroupOf(w, a, b[0].branches) && Coarser(w, a[|b[0].branches|..], b[1..])
    requires HonestBody(w, a) && f.ctx == g.ctx && f.pending == g.pending
    ensures SameButTrace(RunBody(w, a, f), RunBody(w, b, g))
    decreases |b|, 0
  {
    var bs := b[0].branches;
    var rest := a[|bs|..];
    BodyGroupAhead(w, a, bs, rest, f, g);
    var x, y := RunBody(w, StagesOf(bs), f), RunBlock(w, bs, Parallel, g);
    if x.Ran? {
      BodySound(w, rest, b[1..], x.flow, y.flow);
    }
  }

  lemma {:induction false} BodySound(w: World, a: seq<Simple>, b: seq<Simple>, f: Flow, g: Flow)
    requires Coarser(w, a, b) && HonestBody(w, a)
    requires f.ctx == g.ctx && f.pending == g.pending
    ensures SameButTrace(RunBody(w, a, f), RunBody(w, b, g))
    decreases |b|, 1
  {
    if b != [] {
      if a != [] && b[0] == a[0] && Coarser(w, a[1..], b[1..]) {
        SimpleSame(w, a[0], f, g);
        var x, y := RunSimple(w, a[0], f), RunSimple(w, b[0], g);
        if x.Ran? {
          BodySound(w, a[1..], b[1..], x.flow, y.flow);
        }
      } else {
        BodyGroupThenRest(w, a, b, f, g);
      }
    }
  }

  lemma {:induction false} SelectedCoarser(w: World, a: seq<RouteBody>, b: seq<RouteBody>, name: string)
    requires CoarserRoutes(w, a, b)
    requires forall i :: 0 <= i < |a| ==> HonestBody(w, a[i].body)
    ensures match Selected(a, name)
            case None => Selected(b, name).None?
            case Some(x) => HonestBody(w, x) && Selected(b, name).Some? && Coarser(w, x, Selected(b, name).value)
  {
    if a != [] {
      assert Last(a).name == Last(b).name && Coarser(w, Last(a).body, Last(b).body);
      SelectedCoarser(w, Front(a), Front(b), name);
    }
  }

  lemma RoutesSound(w: World, a: seq<RouteBody>, b: seq<RouteBody>, f: Flow, g: Flow)
    requires CoarserRoutes(w, a, b)
    requires forall i :: 0 <= i < |a| ==> HonestBody(w, a[i].body)
    requires f.ctx == g.ctx && f.pending == g.pending
    ensures SameButTrace(RunRoutes(w, a, f), RunRoutes(w, b, g))
  {
    if f.pending.Some? {
      var route := f.pending.value;
      SelectedCoarser(w, a, b, route.route);
      var x, y := Selected(a, route.route), Selected(b, route.route);
      if x.Some? {
        BodySound(w, x.value, y.value,
                  Flow(f.ctx, None, f.trace + [Routed(route.step, route.route)]),
                  Flow(g.ctx, None, g.trace + [Routed(route.step, route.route)]));
      }
    }
  }

  lemma NodeSound(w: World, r: RNode, r': RNode, f: Flow, g: Flow)
    requires CoarserNode(w, r, r') && HonestNode(w, r)
    requires f.ctx == g.ctx && f.pending == g.pending
    ensures SameButTrace(RunNode(w, r, f), RunNode(w, r', g))
  {
    match r
    case Plain(s) => SimpleSame(w, s, f, g);
    case Router(nid, fn, routes) =>
      SimpleSame(w, Stage(nid, fn), f, g);
      var x, y := RunStage(w, nid, fn, f), RunStage(w, nid, fn, g);
      if x.Ran? {
        RoutesSound(w, routes, r'.routes, x.flow, y.flow);
      }
  }

  lemma NodeGroupIsHonest(w: World, a: seq<RNode>, branches: seq<(string, Fn)>)
    requires NodeGroupOf(w, a, branches) && HonestNodes(w, a)
    ensures HonestGroup(w, branches)
  {
    forall i | 0 <= i < |branches|
      ensures HonestSimple(w, StagesOf(branches)[i])
    {
      assert a[i] == a[..|branches|][i] == Plain(StagesOf(branches)[i]);
      assert HonestNode(w, a[i]);
    }
    GroupIsHonest(w, StagesOf(branches), branches);
  }

  /** The stages of a group ahead, walked one by one, against the block that replaces them. */
  lemma GroupAhead(w: World, a: seq<RNode>, bs: seq<(string, Fn)>, rest: seq<RNode>, f: Flow, g: Flow)
    requires NodeGroupOf(w, a, bs) && HonestNodes(w, a) && rest == a[|bs|..]
    requires f.ctx == g.ctx && f.pending == g.pending
    ensures HonestNodes(w, rest)
    ensures var x, y := RunBody(w, StagesOf(bs), f), RunBlock(w, bs, Parallel, g);
            SameButTrace(x, y) && Run(w, a, f) == if x.Stopped? then x else Run(w, rest, x.flow)
  {
    NodeGroupIsHonest(w, a, bs);
    GroupSound(w, bs, f, g);
    RunLifted(w, StagesOf(bs), rest, f);
    assert a == Lift(StagesOf(bs)) + rest;
  }

  lemma GroupThenRest(w: World, a: seq<RNode>, b: seq<RNode>, f: Flow, g: Flow)
    requires b != [] && b[0].Plain? && b[0].simple.Block? && b[0].simple.mode.Parallel?
    requires NodeGroupOf(w, a, b[0].simple.branches) && CoarserNodes(w, a[|b[0].simple.branches|..], b[1..])
    requires HonestNodes(w, a) && f.ctx == g.ctx && f.pending == g.pending
    ensures SameButTrace(Run(w, a, f), Run(w, b, g))
    decreases |b|, 0
  {
    var bs := b[0].simple.branches;
    var rest := a[|bs|..];
    GroupAhead(w, a, bs, rest, f, g);
    var x, y := RunBody(w, StagesOf(bs), f), RunBlock(w, bs, Parallel, g);
    if x.Ran? {
      PipelineSound(w, rest, b[1..], x.flow, y.flow);
    }
  }

  /** Sequential and folded nodes stop together, and otherwise reach the same context. */
  lemma {:induction false} PipelineSound(w: World, a: seq<RNode>, b: seq<RNode>, f: Flow, g: Flow)
    requires CoarserNodes(w, a, b) && HonestNodes(w, a)
    requires f.ctx == g.ctx && f.pending == g.pending
    ensures SameButTrace(Run(w, a, f), Run(w, b, g))
    decreases |b|, 1
  {
    if b != [] {
      if a != [] && CoarserNode(w, a[0], b[0]) && CoarserNodes(w, a[1..], b[1..]) {
        NodeSound(w, a[0], b[0], f, g);
        var x, y := RunNode(w, a[0], f), RunNode(w, b[0], g);
        if x.Ran? {
          PipelineSound(w, a[1..], b[1..], x.flow, y.flow);
        }
      } else {
        GroupThenRest(w, a, b, f, g);
      }
    }
  }

  // ---------------------------------------------------------------- main results

  /** Read off the declarations alone: neither at top level nor in a route body does a group's next candidate trip. */
  ghost predicate FoldsCleanly(w: World, nodes: seq<Node>) {
    && NeverTrips(w, nodes)
    && forall i :: 0 <= i < |nodes| && nodes[i].RouteDict? ==> RoutesNeverTrip(w, nodes[i].routes)
  }

  ghost predicate RoutesNeverTrip(w: World, routes: seq<(string, Body)>) {
    forall i :: 0 <= i < |routes| ==> BodyNeverTrips(w, routes[i].1)
  }

  /** A body that is one node has no neighbours to trip over. */
  ghost predicate BodyNeverTrips(w: World, body: Body) {
    body.ListBody? ==> NeverTrips(w, body.nodes)
  }

  lemma BodyCleanExactly(w: World, body: Body)
    ensures BodyNeverTrips(w, body) <==> Fold(w, Unwrap(body)).Ok?
  {
    FoldRaisesExactly(w, Unwrap(body));
    if body.SingleBody? {
      var one := [body.node];
      forall i | 0 <= i < |one|
        ensures !TripsFrom(w, one, i)
      {
        assert NextStart(w, one, i) == 1;
      }
    }
  }

  /** The folds raise nothing exactly if the declarations say so. */
  lemma CleanExactly(w: World, nodes: seq<Node>)
    ensures FoldsCleanly(w, nodes) <==> Fold(w, nodes).Ok? && AllRoutesFold(w, nodes)
  {
    FoldRaisesExactly(w, nodes);
    forall i | 0 <= i < |nodes| && nodes[i].RouteDict?
      ensures RoutesNeverTrip(w, nodes[i].routes) <==> RoutesFold(w, nodes[i].routes)
    {
      RoutesCleanExactly(w, nodes[i].routes);
    }
  }

  lemma RoutesCleanExactly(w: World, routes: seq<(string, Body)>)
    ensures RoutesNeverTrip(w, routes) <==> RoutesFold(w, routes)
  {
    forall i | 0 <= i < |routes|
      ensures BodyNeverTrips(w, routes[i].1) <==> Fold(w, Unwrap(routes[i].1)).Ok?
    {
      BodyCleanExactly(w, routes[i].1);
    }
  }

  ghost predicate SameOutcome(a: Outcome, b: Outcome) {
    a.Success? == b.Success? && (a.Success? ==> a.ctx == b.ctx)
  }

  /** If no candidate trips, the two compilations raise the same error or both succeed, with one symbol table. */
  lemma FoldingKeepsNames(w: World, nodes: seq<Node>)
    requires FoldsCleanly(w, nodes)
    ensures SamePipelines(w, Lower(w, false, nodes), Lower(w, true, nodes))
  {
    CleanExactly(w, nodes);
    FoldGroups(w, nodes);
    PipelineFolds(w, nodes, Fold(w, nodes).value, map[]);
  }

  /**
   * Whole-pipeline equivalence: for honest stages the program compiled with auto-parallelism
   * succeeds exactly when the sequential one does, with the same final context.
   */
  lemma AutoParallelEquivalence(w: World, nodes: seq<Node>, d: bool, ctx: Context)
    requires FoldsCleanly(w, nodes) && Lower(w, false, nodes).Ok?
    requires HonestNodes(w, Lower(w, false, nodes).value.0)
    ensures Lower(w, true, nodes).Ok?
    ensures var (a, t) := Lower(w, false, nodes).value;
            var (b, t') := Lower(w, true, nodes).value;
            var p, q := Assemble(w, a, t), Assemble(w, b, t');
            && Forward(p.code) && Forward(q.code)
            && SameOutcome(Observed(p, Exec(w, p, d, Fresh(ctx))), Observed(q, Exec(w, q, d, Fresh(ctx))))
  {
    FoldingKeepsNames(w, nodes);
    Correctness.CompilerCorrect(w, false, nodes, d, ctx);
    Correctness.CompilerCorrect(w, true, nodes, d, ctx);
    var f := Flow(ctx, None, [PipelineStarted]);
    PipelineSound(w, Lower(w, false, nodes).value.0, Lower(w, true, nodes).value.0, f, f);
  }

  // ------------------------------------------------- when auto-parallelism compiles

  lemma {:induction false} RoutesFoldIfCompiled(w: World, routes: seq<(string, Body)>, t: Table)
    requires ResolveRoutes(w, true, routes, t).Ok?
    ensures RoutesFold(w, routes)
    decreases |routes|
  {
    if routes != [] {
      RoutesFoldIfCompiled(w, routes[1..], ResolveRoute(w, true, routes[0], t).value.1);
      forall i | 0 <= i < |routes|
        ensures Fold(w, Unwrap(routes[i].1)).Ok?
      {
        assert i > 0 ==> routes[i] == routes[1..][i - 1];
      }
    }
  }

  lemma {:induction false} AllFoldIfCompiled(w: World, nodes: seq<Node>, t: Table)
    requires Resolve(w, true, nodes, t).Ok?
    ensures AllRoutesFold(w, nodes)
    decreases |nodes|
  {
    if nodes != [] {
      var n, t' := Taken(nodes), ResolveHead(w, true, nodes, t).value.1;
      AllFoldIfCompiled(w, nodes[n..], t');
      if n == 2 {
        RoutesFoldIfCompiled(w, nodes[1].routes, ResolveStage(w, nodes[0].fn, t).value.1);
      }
      forall i | 0 <= i < |nodes| && nodes[i].RouteDict?
        ensures RoutesFold(w, nodes[i].routes)
      {
        assert i >= n ==> nodes[i] == nodes[n..][i - n];
      }
    }
  }

  lemma {:induction false} DictsSurvive(w: World, nodes: seq<Node>, out: seq<Node>)
    requires Grouped(w, nodes, out) && AllRoutesFold(w, out)
    ensures AllRoutesFold(w, nodes)
    decreases |out|
  {
    if out != [] {
      var n := 1;
      if !(nodes != [] && out[0] == nodes[0] && Grouped(w, nodes[1..], out[1..])) {
        n := |out[0].branches|;
        assert forall i: nat :: i < n ==> Foldable(nodes, i);
      }
      forall i | 0 <= i < |out[1..]| && out[1..][i].RouteDict?
        ensures RoutesFold(w, out[1..][i].routes)
      {
        assert out[1..][i] == out[i + 1];
      }
      DictsSurvive(w, nodes[n..], out[1..]);
      forall i | 0 <= i < |nodes| && nodes[i].RouteDict?
        ensures RoutesFold(w, nodes[i].routes)
      {
        if i >= n {
          assert nodes[i] == nodes[n..][i - n];
        }
      }
    }
  }

  /**
   * Auto-parallelism costs a compilation exactly the pipelines in which some group's next candidate trips,
   * at top level or in a route body, and those raise the TypeError.
   */
  lemma CompilesExactly(w: World, nodes: seq<Node>)
    ensures Lower(w, true, nodes).Ok? <==> Lower(w, false, nodes).Ok? && FoldsCleanly(w, nodes)
    ensures Lower(w, false, nodes).Ok? && !FoldsCleanly(w, nodes) ==> Lower(w, true, nodes) == Err(UndeclaredSide)
  {
    CleanExactly(w, nodes);
    FoldRaisesExactly(w, nodes);
    if Fold(w, nodes).Ok? {
      var out := Fold(w, nodes).value;
      FoldGroups(w, nodes);
      PipelineFolds(w, nodes, out, map[]);
      if Lower(w, true, nodes).Ok? {
        AllFoldIfCompiled(w, out, map[]);
        DictsSurvive(w, nodes, out);
      }
    }
  }

  /** A pipeline of two stages that declare reads only: it compiles, but not with auto-parallelism. */
  lemma OneSidedPipelineLost(f: Fn)
    ensures var w, nodes := ReadersOnly(), [StageNode(f), StageNode(f)];
            Lower(w, false, nodes).Ok? && !FoldsCleanly(w, nodes) && Lower(w, true, nodes) == Err(UndeclaredSide)
  {
    var w, nodes := ReadersOnly(), [StageNode(f), StageNode(f)];
    OneSidedNeighboursRaise(f, f);
    CleanExactly(w, nodes);
    var t: Table := map["f" := f];
    assert Naming.NodeId(w, f, map[]) == "f" && Naming.NodeId(w, f, t) == "f" && t["f" := f] == t;
    assert nodes[1..] == [StageNode(f)] && nodes[1..][1..] == [];
    assert Resolve(w, false, nodes[1..][1..], t) == Ok(([], t));
    assert ResolveHead(w, false, nodes[1..], t) == Ok((Plain(Stage("f", f)), t));
    assert ResolveHead(w, false, nodes, map[]) == Ok((Plain(Stage("f", f)), t));
    assert Resolve(w, false, nodes[1..], t).Ok?;
  }

  /** Stages that declare both sides or neither, at top level and in every route body, fold cleanly. */
  lemma DeclaredFoldsCleanly(w: World, nodes: seq<Node>)
    requires AllBothOrNeither(w, nodes)
    requires forall i, j :: 0 <= i < |nodes| && nodes[i].RouteDict? && 0 <= j < |nodes[i].routes| ==>
               BodyBothOrNeither(w, nodes[i].routes[j].1)
    ensures FoldsCleanly(w, nodes)
  {
    FoldTotal(w, nodes);
    FoldRaisesExactly(w, nodes);
    forall i, j | 0 <= i < |nodes| && nodes[i].RouteDict? && 0 <= j < |nodes[i].routes|
      ensures BodyNeverTrips(w, nodes[i].routes[j].1)
    {
      var body := nodes[i].routes[j].1;
      assert BodyBothOrNeither(w, body);
      if body.ListBody? {
        FoldTotal(w, body.nodes);
        FoldRaisesExactly(w, body.nodes);
      }
    }
  }

  ghost predicate AllBothOrNeither(w: World, nodes: seq<Node>) {
    forall i :: 0 <= i < |nodes| && nodes[i].StageNode? ==> BothOrNeither(w, nodes[i].fn)
  }

  /** One node on its own is never tried for a group, whatever it declares. */
  ghost predicate BodyBothOrNeither(w: World, body: Body) {
    body.ListBody? ==> AllBothOrNeither(w, body.nodes)
  }

  // --------------------------------------------------------- dicts inside routes

  lemma {:induction false} BodyHoldsNoDict(w: World, nodes: seq<Node>, t: Table)
    requires ResolveBody(w, nodes, t).Ok?
    ensures forall i :: 0 <= i < |nodes| ==> !nodes[i].RouteDict?
    decreases |nodes|
  {
    if nodes != [] {
      BodyHoldsNoDict(w, nodes[1..], ResolveSimple(w, nodes[0], t).value.1);
      assert forall i :: 0 < i < |nodes| ==> nodes[i] == nodes[1..][i - 1];
    }
  }

  /** No route body holds a dict of its own. */
  ghost predicate FlatRoutes(routes: seq<(string, Body)>) {
    forall j :: 0 <= j < |routes| ==> FlatBody(routes[j].1)
  }

  ghost predicate FlatBody(body: Body) {
    match body
    case ListBody(nodes) => forall k :: 0 <= k < |nodes| ==> !nodes[k].RouteDict?
    case SingleBody(node) => !node.RouteDict?
  }

  lemma {:induction false} RoutesHoldNoDict(w: World, routes: seq<(string, Body)>, t: Table)
    requires ResolveRoutes(w, false, routes, t).Ok?
    ensures FlatRoutes(routes)
    decreases |routes|
  {
    if routes != [] {
      BodyHoldsNoDict(w, Unwrap(routes[0].1), t);
      RoutesHoldNoDict(w, routes[1..], ResolveRoute(w, false, routes[0], t).value.1);
      assert forall j :: 0 < j < |routes| ==> routes[j] == routes[1..][j - 1];
    }
  }

  lemma {:induction false} NodesHoldFlatRoutes(w: World, nodes: seq<Node>, t: Table)
    requires Resolve(w, false, nodes, t).Ok?
    ensures forall i :: 0 <= i < |nodes| && nodes[i].RouteDict? ==> FlatRoutes(nodes[i].routes)
    decreases |nodes|
  {
    if nodes != [] {
      var n, t' := Taken(nodes), ResolveHead(w, false, nodes, t).value.1;
      NodesHoldFlatRoutes(w, nodes[n..], t');
      if n == 2 {
        RoutesHoldNoDict(w, nodes[1].routes, ResolveStage(w, nodes[0].fn, t).value.1);
      }
      forall i | 0 <= i < |nodes| && nodes[i].RouteDict?
        ensures FlatRoutes(nodes[i].routes)
      {
        assert i >= n ==> nodes[i] == nodes[n..][i - n];
      }
    }
  }

  /** Nested routing never compiles: every pipeline with a dict inside a route body is rejected. */
  lemma NestedRoutingRejected(w: World, auto: bool, nodes: seq<Node>, i: nat)
    requires i < |nodes| && nodes[i].RouteDict? && !FlatRoutes(nodes[i].routes)
    ensures Lower(w, auto, nodes).Err?
  {
    CompilesExactly(w, nodes);
    if Lower(w, false, nodes).Ok? {
      NodesHoldFlatRoutes(w, nodes, map[]);
    }
  }
}
