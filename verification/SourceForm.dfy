/** What compiling makes of a source list, told from the list itself and not from how it is compiled. */
module SourceForm {
  import opened Primitives
  import opened Bytecode
  import Naming
  import opened Folding
  import opened Lowering

  // ------------------------------------------------------ which node comes from which

  /** The stage of a stage, or a block with the same functions in order and the same mode; never a dict. */
  ghost predicate ItemOf(node: Node, s: Simple) {
    match node
    case StageNode(fn) => s.Stage? && s.fn == fn
    case ParallelNode(fns, mode) =>
      s.Block? && s.mode == mode && |s.branches| == |fns| && forall i :: 0 <= i < |fns| ==> s.branches[i].1 == fns[i]
    case RouteDict(_) => false
  }

  ghost predicate ItemsOf(nodes: seq<Node>, items: seq<Simple>) {
    |items| == |nodes| && forall i :: 0 <= i < |nodes| ==> ItemOf(nodes[i], items[i])
  }

  /** Item by item the nodes of a list, or the one node of any other body; a route is never empty. */
  ghost predicate BodyOf(body: Body, items: seq<Simple>) {
    match body
    case ListBody(nodes) => nodes != [] && ItemsOf(nodes, items)
    case SingleBody(node) => |items| == 1 && ItemOf(node, items[0])
  }

  ghost predicate RouteOf(route: (string, Body), r: RouteBody) {
    r.name == route.0 && BodyOf(route.1, r.body)
  }

  ghost predicate RoutesOf(routes: seq<(string, Body)>, rs: seq<RouteBody>) {
    |rs| == |routes| && forall i :: 0 <= i < |routes| ==> RouteOf(routes[i], rs[i])
  }

  /** Node by node, a stage with a dict behind it being the dict's router. */
  ghost predicate NodesOf(nodes: seq<Node>, rs: seq<RNode>)
    decreases |rs|
  {
    if rs == [] then nodes == []
    else
      match rs[0]
      case Plain(s) =>
        && nodes != [] && ItemOf(nodes[0], s) && NodesOf(nodes[1..], rs[1..])
        && !(nodes[0].StageNode? && |nodes| > 1 && nodes[1].RouteDict?)
      case Router(_, fn, routes) =>
        && |nodes| > 1 && nodes[0] == StageNode(fn) && nodes[1].RouteDict? && RoutesOf(nodes[1].routes, routes)
        && NodesOf(nodes[2..], rs[1..])
  }

  // ----------------------------------------------------------- ids, in source order

  /** Every use of a function under an id, in source order. */
  function SimpleUses(s: Simple): seq<(string, Fn)> {
    match s
    case Stage(nid, fn) => [(nid, fn)]
    case Block(branches, _) => branches
  }

  function BodyUses(body: seq<Simple>): seq<(string, Fn)> {
    if body == [] then [] else SimpleUses(body[0]) + BodyUses(body[1..])
  }

  function RoutesUses(routes: seq<RouteBody>): seq<(string, Fn)> {
    if routes == [] then [] else BodyUses(routes[0].body) + RoutesUses(routes[1..])
  }

  function NodeUses(r: RNode): seq<(string, Fn)> {
    match r
    case Plain(s) => SimpleUses(s)
    case Router(nid, fn, routes) => [(nid, fn)] + RoutesUses(routes)
  }

  function Uses(rs: seq<RNode>): seq<(string, Fn)> {
    if rs == [] then [] else NodeUses(rs[0]) + Uses(rs[1..])
  }

  function Registered(uses: seq<(string, Fn)>, t: Table): Table {
    if uses == [] then t else Registered(uses[1..], t[uses[0].0 := uses[0].1])
  }

  /** Each is a stage, and has the id its name gives it against all ids handed out before. */
  ghost predicate NamedInTurn(w: World, uses: seq<(string, Fn)>, t: Table) {
    uses == [] ||
    (&& w.attrs(uses[0].1).isStage && uses[0].0 == Naming.NodeId(w, uses[0].1, t)
     && NamedInTurn(w, uses[1..], t[uses[0].0 := uses[0].1]))
  }

  /** `uses`, named in turn against `t`, leave the table `t'`. */
  ghost predicate Names(w: World, uses: seq<(string, Fn)>, t: Table, t': Table) {
    NamedInTurn(w, uses, t) && t' == Registered(uses, t)
  }

  lemma {:induction false} NamesAppend(w: World, a: seq<(string, Fn)>, b: seq<(string, Fn)>, t: Table, t': Table)
    ensures Names(w, a + b, t, t') <==> NamedInTurn(w, a, t) && Names(w, b, Registered(a, t), t')
    decreases |a|
  {
    if a == [] {
      assert a + b == b;
    } else {
      assert (a + b)[1..] == a[1..] + b;
      NamesAppend(w, a[1..], b, t[a[0].0 := a[0].1], t');
    }
  }

  // ---------------------------------------------------------------- write conflicts

  /** Both declare to write some key. */
  ghost predicate BothWrite(w: World, f: Fn, g: Fn) {
    var x, y := w.attrs(f).writeKeys, w.attrs(g).writeKeys;
    x.Some? && y.Some? && exists k :: k in x.value && k in y.value
  }

  /** Branches under different ids that declare to write a common key. */
  ghost predicate InConflict(w: World, a: (string, Fn), b: (string, Fn)) {
    a.0 != b.0 && BothWrite(w, a.1, b.1)
  }

  ghost predicate NoConflict(w: World, s: Simple) {
    s.Block? ==> forall i, j :: 0 <= i < j < |s.branches| ==> !InConflict(w, s.branches[i], s.branches[j])
  }

  ghost predicate BodyNoConflict(w: World, body: seq<Simple>) {
    forall i :: 0 <= i < |body| ==> NoConflict(w, body[i])
  }

  ghost predicate RoutesNoConflict(w: World, routes: seq<RouteBody>) {
    forall i :: 0 <= i < |routes| ==> BodyNoConflict(w, routes[i].body)
  }

  ghost predicate NodeNoConflict(w: World, r: RNode) {
    match r
    case Plain(s) => NoConflict(w, s)
    case Router(_, _, routes) => RoutesNoConflict(w, routes)
  }

  // ------------------------------------------------------------------ layer by layer

  lemma {:induction false} BranchesExactly(w: World, fns: seq<Fn>, t: Table, bs: seq<(string, Fn)>, t': Table)
    ensures ResolveBranches(w, fns, t) == Ok((bs, t'))
       <==> |bs| == |fns| && (forall i :: 0 <= i < |fns| ==> bs[i].1 == fns[i]) && Names(w, bs, t, t')
    decreases |fns|
  {
    if fns != [] {
      var first := ResolveStage(w, fns[0], t);
      if first.Ok? {
        if bs != [] {
          BranchesExactly(w, fns[1..], first.value.1, bs[1..], t');
          assert bs == [bs[0]] + bs[1..];
        }
        var rest := ResolveBranches(w, fns[1..], first.value.1);
        if rest.Ok? {
          BranchesExactly(w, fns[1..], first.value.1, rest.value.0, rest.value.1);
        }
      }
    }
  }

  lemma ConflictExactly(w: World, bs: seq<(string, Fn)>, mode: ForkMode)
    ensures DeclareConflict(w, bs) <==> !NoConflict(w, Block(bs, mode))
  {
    forall i, j | 0 <= i < j < |bs|
      ensures PairConflicts(w, bs[i], bs[j]) <==> InConflict(w, bs[i], bs[j])
    {
      PairWrites(w, bs[i], bs[j]);
    }
  }

  lemma PairWrites(w: World, a: (string, Fn), b: (string, Fn))
    ensures PairConflicts(w, a, b) <==> InConflict(w, a, b)
  {
    var x, y := w.attrs(a.1).writeKeys, w.attrs(b.1).writeKeys;
    if x.Some? && y.Some? {
      if k :| k in x.value && k in y.value {
        assert k in x.value * y.value;
      }
      if k :| k in x.value * y.value {
        assert k in x.value && k in y.value;
      }
    }
  }

  /** Resolving `node` against `t` may give `s` and `t'`. */
  ghost predicate SimpleIs(w: World, node: Node, t: Table, s: Simple, t': Table) {
    ItemOf(node, s) && Names(w, SimpleUses(s), t, t') && NoConflict(w, s)
  }

  lemma StageExactly(w: World, fn: Fn, t: Table, nid: string, t': Table)
    ensures ResolveStage(w, fn, t) == Ok((nid, t')) <==> Names(w, [(nid, fn)], t, t')
  {
    var uses := [(nid, fn)];
    var last := t[nid := fn];
    assert uses[1..] == [] && NamedInTurn(w, uses[1..], last) && Registered(uses[1..], last) == last;
  }

  lemma SimpleExactly(w: World, node: Node, t: Table, s: Simple, t': Table)
    ensures ResolveSimple(w, node, t) == Ok((s, t')) <==> SimpleIs(w, node, t, s, t')
  {
    match node
    case StageNode(fn) => StageExactly(w, fn, t, if s.Stage? then s.nid else "", t');
    case ParallelNode(fns, mode) => BlockExactly(w, fns, mode, t, s, t');
    case RouteDict(_) =>
  }

  lemma BlockExactly(w: World, fns: seq<Fn>, mode: ForkMode, t: Table, s: Simple, t': Table)
    ensures ResolveBlock(w, fns, mode, t) == Ok((s, t')) <==> SimpleIs(w, ParallelNode(fns, mode), t, s, t')
  {
    var bs := ResolveBranches(w, fns, t);
    if bs.Ok? {
      ConflictExactly(w, bs.value.0, mode);
      BranchesExactly(w, fns, t, bs.value.0, bs.value.1);
    }
    if s.Block? {
      BranchesExactly(w, fns, t, s.branches, t');
    }
  }

  ghost predicate BodyIs(w: World, nodes: seq<Node>, t: Table, body: seq<Simple>, t': Table) {
    ItemsOf(nodes, body) && Names(w, BodyUses(body), t, t') && BodyNoConflict(w, body)
  }

  lemma BodyIsCons(w: World, nodes: seq<Node>, t: Table, body: seq<Simple>, t': Table)
    requires nodes != [] && body != []
    ensures var mid := Registered(SimpleUses(body[0]), t);
            (BodyIs(w, nodes, t, body, t') <==>
             SimpleIs(w, nodes[0], t, body[0], mid) && BodyIs(w, nodes[1..], mid, body[1..], t'))
  {
    NamesAppend(w, SimpleUses(body[0]), BodyUses(body[1..]), t, t');
    ItemsOfCons(nodes, body);
    NoConflictCons(w, body);
  }

  lemma ItemsOfCons(nodes: seq<Node>, body: seq<Simple>)
    requires nodes != [] && body != []
    ensures ItemsOf(nodes, body) <==> ItemOf(nodes[0], body[0]) && ItemsOf(nodes[1..], body[1..])
  {
    if ItemsOf(nodes[1..], body[1..]) && ItemOf(nodes[0], body[0]) {
      assert forall i :: 0 < i < |body| ==> body[i] == body[1..][i - 1] && nodes[i] == nodes[1..][i - 1];
    }
  }

  lemma NoConflictCons(w: World, body: seq<Simple>)
    requires body != []
    ensures BodyNoConflict(w, body) <==> NoConflict(w, body[0]) && BodyNoConflict(w, body[1..])
  {
    if BodyNoConflict(w, body[1..]) && NoConflict(w, body[0]) {
      assert forall i :: 0 < i < |body| ==> body[i] == body[1..][i - 1];
    }
  }

  lemma {:induction false} BodyExactly(w: World, nodes: seq<Node>, t: Table, body: seq<Simple>, t': Table)
    ensures ResolveBody(w, nodes, t) == Ok((body, t')) <==> BodyIs(w, nodes, t, body, t')
    decreases |nodes|, 1
  {
    if nodes != [] {
      if body != [] {
        BodyTurn(w, nodes, t, body, t');
      } else if ResolveBody(w, nodes, t).Ok? {
        BodyNotEmpty(w, nodes, t);
      }
    }
  }

  lemma BodyNotEmpty(w: World, nodes: seq<Node>, t: Table)
    requires nodes != [] && ResolveBody(w, nodes, t).Ok?
    ensures ResolveBody(w, nodes, t).value.0 != []
  {
  }

  /** One turn of the loop over a body. */
  lemma BodyTurn(w: World, nodes: seq<Node>, t: Table, body: seq<Simple>, t': Table)
    requires nodes != [] && body != []
    ensures ResolveBody(w, nodes, t) == Ok((body, t')) <==> BodyIs(w, nodes, t, body, t')
    decreases |nodes|, 0
  {
    var mid := Registered(SimpleUses(body[0]), t);
    BodyIsCons(w, nodes, t, body, t');
    SimpleExactly(w, nodes[0], t, body[0], mid);
    BodyExactly(w, nodes[1..], mid, body[1..], t');
    if ResolveSimple(w, nodes[0], t).Ok? {
      var (s, m) := ResolveSimple(w, nodes[0], t).value;
      SimpleExactly(w, nodes[0], t, s, m);
    }
    BodyStep(w, nodes, t, body, t', mid);
  }

  lemma BodyStep(w: World, nodes: seq<Node>, t: Table, body: seq<Simple>, t': Table, mid: Table)
    requires nodes != [] && body != []
    requires var first := ResolveSimple(w, nodes[0], t);
             first.Ok? && first.value.0 == body[0] ==> first.value.1 == mid
    ensures ResolveBody(w, nodes, t) == Ok((body, t')) <==>
            && ResolveSimple(w, nodes[0], t) == Ok((body[0], mid))
            && ResolveBody(w, nodes[1..], mid) == Ok((body[1..], t'))
  {
    assert body == [body[0]] + body[1..];
  }

  ghost predicate RouteIs(w: World, route: (string, Body), t: Table, r: RouteBody, t': Table) {
    RouteOf(route, r) && Names(w, BodyUses(r.body), t, t') && BodyNoConflict(w, r.body)
  }

  lemma RouteExactly(w: World, route: (string, Body), t: Table, r: RouteBody, t': Table)
    ensures ResolveRoute(w, false, route, t) == Ok((r, t')) <==> RouteIs(w, route, t, r, t')
  {
    var nodes := Unwrap(route.1);
    BodyExactly(w, nodes, t, r.body, t');
    assert BodyOf(route.1, r.body) <==> nodes != [] && ItemsOf(nodes, r.body);
  }

  ghost predicate RoutesAre(w: World, routes: seq<(string, Body)>, t: Table, rs: seq<RouteBody>, t': Table) {
    RoutesOf(routes, rs) && Names(w, RoutesUses(rs), t, t') && RoutesNoConflict(w, rs)
  }

  lemma RoutesAreCons(w: World, routes: seq<(string, Body)>, t: Table, rs: seq<RouteBody>, t': Table)
    requires routes != [] && rs != []
    ensures var mid := Registered(BodyUses(rs[0].body), t);
            (RoutesAre(w, routes, t, rs, t') <==>
             RouteIs(w, routes[0], t, rs[0], mid) && RoutesAre(w, routes[1..], mid, rs[1..], t'))
  {
    NamesAppend(w, BodyUses(rs[0].body), RoutesUses(rs[1..]), t, t');
    RoutesOfCons(routes, rs);
    RoutesNoConflictCons(w, rs);
  }

  lemma RoutesOfCons(routes: seq<(string, Body)>, rs: seq<RouteBody>)
    requires routes != [] && rs != []
    ensures RoutesOf(routes, rs) <==> RouteOf(routes[0], rs[0]) && RoutesOf(routes[1..], rs[1..])
  {
    if RoutesOf(routes[1..], rs[1..]) && RouteOf(routes[0], rs[0]) {
      assert forall i :: 0 < i < |rs| ==> rs[i] == rs[1..][i - 1] && routes[i] == routes[1..][i - 1];
    }
  }

  lemma RoutesNoConflictCons(w: World, rs: seq<RouteBody>)
    requires rs != []
    ensures RoutesNoConflict(w, rs) <==> BodyNoConflict(w, rs[0].body) && RoutesNoConflict(w, rs[1..])
  {
    if RoutesNoConflict(w, rs[1..]) && BodyNoConflict(w, rs[0].body) {
      assert forall i :: 0 < i < |rs| ==> rs[i] == rs[1..][i - 1];
    }
  }

  lemma {:induction false} RoutesExactly(w: World, routes: seq<(string, Body)>, t: Table, rs: seq<RouteBody>, t': Table)
    ensures ResolveRoutes(w, false, routes, t) == Ok((rs, t')) <==> RoutesAre(w, routes, t, rs, t')
    decreases |routes|, 1
  {
    if routes != [] {
      if rs != [] {
        RoutesTurn(w, routes, t, rs, t');
      } else if ResolveRoutes(w, false, routes, t).Ok? {
        RoutesNotEmpty(w, routes, t);
      }
    }
  }

  lemma RoutesNotEmpty(w: World, routes: seq<(string, Body)>, t: Table)
    requires routes != [] && ResolveRoutes(w, false, routes, t).Ok?
    ensures ResolveRoutes(w, false, routes, t).value.0 != []
  {
  }

  /** One turn of the loop over the routes. */
  lemma RoutesTurn(w: World, routes: seq<(string, Body)>, t: Table, rs: seq<RouteBody>, t': Table)
    requires routes != [] && rs != []
    ensures ResolveRoutes(w, false, routes, t) == Ok((rs, t')) <==> RoutesAre(w, routes, t, rs, t')
    decreases |routes|, 0
  {
    var mid := Registered(BodyUses(rs[0].body), t);
    RoutesAreCons(w, routes, t, rs, t');
    RouteExactly(w, routes[0], t, rs[0], mid);
    RoutesExactly(w, routes[1..], mid, rs[1..], t');
    if ResolveRoute(w, false, routes[0], t).Ok? {
      var (r, m) := ResolveRoute(w, false, routes[0], t).value;
      RouteExactly(w, routes[0], t, r, m);
    }
    RoutesStep(w, routes, t, rs, t', mid);
  }

  lemma RoutesStep(w: World, routes: seq<(string, Body)>, t: Table, rs: seq<RouteBody>, t': Table, mid: Table)
    requires routes != [] && rs != []
    requires var first := ResolveRoute(w, false, routes[0], t);
             first.Ok? && first.value.0 == rs[0] ==> first.value.1 == mid
    ensures ResolveRoutes(w, false, routes, t) == Ok((rs, t')) <==>
            && ResolveRoute(w, false, routes[0], t) == Ok((rs[0], mid))
            && ResolveRoutes(w, false, routes[1..], mid) == Ok((rs[1..], t'))
  {
    assert rs == [rs[0]] + rs[1..];
  }

  // ------------------------------------------------------------- whole pipelines

  /** The head of the list, a router with its dict, may give `r` and `t'`. */
  ghost predicate HeadIs(w: World, nodes: seq<Node>, t: Table, r: RNode, t': Table)
    requires nodes != []
  {
    && Names(w, NodeUses(r), t, t') && NodeNoConflict(w, r)
    && match r
       case Plain(s) => ItemOf(nodes[0], s) && !(nodes[0].StageNode? && |nodes| > 1 && nodes[1].RouteDict?)
       case Router(_, fn, routes) =>
         |nodes| > 1 && nodes[0] == StageNode(fn) && nodes[1].RouteDict? && RoutesOf(nodes[1].routes, routes)
  }

  lemma RouterExactly(w: World, fn: Fn, routes: seq<(string, Body)>, t: Table, r: RNode, t': Table)
    ensures ResolveRouter(w, false, fn, routes, t) == Ok((r, t')) <==>
            && r.Router? && r.fn == fn && RoutesOf(routes, r.routes)
            && Names(w, NodeUses(r), t, t') && NodeNoConflict(w, r)
  {
    var s := ResolveStage(w, fn, t);
    if r.Router? {
      var mid := t[r.nid := fn];
      StageExactly(w, fn, t, r.nid, mid);
      RoutesExactly(w, routes, mid, r.routes, t');
      NamesAppend(w, [(r.nid, r.fn)], RoutesUses(r.routes), t, t');
      assert Registered([(r.nid, fn)], t) == mid by {
        assert [(r.nid, fn)][1..] == [] && Registered([(r.nid, fn)][1..], mid) == mid;
      }
    }
  }

  lemma HeadExactly(w: World, nodes: seq<Node>, t: Table, r: RNode, t': Table)
    requires nodes != []
    ensures ResolveHead(w, false, nodes, t) == Ok((r, t')) <==> HeadIs(w, nodes, t, r, t')
  {
    if nodes[0].StageNode? && |nodes| > 1 && nodes[1].RouteDict? {
      RouterExactly(w, nodes[0].fn, nodes[1].routes, t, r, t');
    } else if !nodes[0].RouteDict? {
      if r.Plain? {
        SimpleExactly(w, nodes[0], t, r.simple, t');
      }
    }
  }

  /**
   * What a compiled pipeline is, and when there is one: its nodes come from the source list node by node, the
   * ids are those the names give in source order, the table holds exactly these, and no block has a conflict.
   */
  ghost predicate NodesAre(w: World, nodes: seq<Node>, t: Table, rs: seq<RNode>, t': Table) {
    && NodesOf(nodes, rs) && Names(w, Uses(rs), t, t')
    && forall i :: 0 <= i < |rs| ==> NodeNoConflict(w, rs[i])
  }

  lemma NodesAreCons(w: World, nodes: seq<Node>, t: Table, rs: seq<RNode>, t': Table, n: nat)
    requires nodes != [] && rs != [] && n == Taken(nodes)
    ensures var mid := Registered(NodeUses(rs[0]), t);
            (NodesAre(w, nodes, t, rs, t') <==>
             HeadIs(w, nodes, t, rs[0], mid) && NodesAre(w, nodes[n..], mid, rs[1..], t'))
  {
    NamesAppend(w, NodeUses(rs[0]), Uses(rs[1..]), t, t');
    if (forall i :: 0 <= i < |rs[1..]| ==> NodeNoConflict(w, rs[1..][i])) && NodeNoConflict(w, rs[0]) {
      assert forall i :: 0 < i < |rs| ==> rs[i] == rs[1..][i - 1];
    }
  }

  lemma {:induction false} ResolvesExactly(w: World, nodes: seq<Node>, t: Table, rs: seq<RNode>, t': Table)
    ensures Resolve(w, false, nodes, t) == Ok((rs, t')) <==> NodesAre(w, nodes, t, rs, t')
    decreases |nodes|, 1
  {
    if nodes != [] {
      if rs != [] {
        NodesTurn(w, nodes, t, rs, t', Taken(nodes));
      } else if Resolve(w, false, nodes, t).Ok? {
        NodesNotEmpty(w, nodes, t);
      }
    }
  }

  lemma NodesNotEmpty(w: World, nodes: seq<Node>, t: Table)
    requires nodes != [] && Resolve(w, false, nodes, t).Ok?
    ensures Resolve(w, false, nodes, t).value.0 != []
  {
  }

  /** One turn of the main loop. */
  lemma NodesTurn(w: World, nodes: seq<Node>, t: Table, rs: seq<RNode>, t': Table, n: nat)
    requires nodes != [] && rs != [] && n == Taken(nodes)
    ensures Resolve(w, false, nodes, t) == Ok((rs, t')) <==> NodesAre(w, nodes, t, rs, t')
    decreases |nodes|, 0
  {
    var mid := Registered(NodeUses(rs[0]), t);
    NodesAreCons(w, nodes, t, rs, t', n);
    HeadExactly(w, nodes, t, rs[0], mid);
    ResolvesExactly(w, nodes[n..], mid, rs[1..], t');
    if ResolveHead(w, false, nodes, t).Ok? {
      var (r, m) := ResolveHead(w, false, nodes, t).value;
      HeadExactly(w, nodes, t, r, m);
    }
    NodesStep(w, nodes, t, rs, t', mid, n);
  }

  lemma NodesStep(w: World, nodes: seq<Node>, t: Table, rs: seq<RNode>, t': Table, mid: Table, n: nat)
    requires nodes != [] && rs != [] && n == Taken(nodes)
    requires var first := ResolveHead(w, false, nodes, t);
             first.Ok? && first.value.0 == rs[0] ==> first.value.1 == mid
    ensures Resolve(w, false, nodes, t) == Ok((rs, t')) <==>
            && ResolveHead(w, false, nodes, t) == Ok((rs[0], mid))
            && Resolve(w, false, nodes[n..], mid) == Ok((rs[1..], t'))
  {
    assert rs == [rs[0]] + rs[1..];
  }

  /** Without auto-parallelism a pipeline compiles exactly to what its source says, or not at all. */
  lemma CompilesToItsSource(w: World, nodes: seq<Node>, rs: seq<RNode>, t: Table)
    ensures Lower(w, false, nodes) == Ok((rs, t)) <==> NodesAre(w, nodes, map[], rs, t)
  {
    ResolvesExactly(w, nodes, map[], rs, t);
  }
}
