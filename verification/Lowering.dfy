/**
 * What `Compiler.compile` builds, as two functions: `Resolve` gives every stage its node id against
 * the growing symbol table, `Code` lays the resolved nodes out as instructions.
 */
module Lowering {
  import opened Primitives
  import opened Bytecode
  import Naming
  import opened Folding

  /** A stage or Parallel block with its ids: all that a route body may hold. */
  datatype Simple =
    | Stage(nid: string, fn: Fn)
    | Block(branches: seq<(string, Fn)>, mode: ForkMode)

  datatype RouteBody = RouteBody(name: string, body: seq<Simple>)

  datatype RNode =
    | Plain(simple: Simple)
    | Router(nid: string, fn: Fn, routes: seq<RouteBody>)

  type Compiled<T> = Result<(T, Table), CompileError>

  // ------------------------------------------------------------------ names

  /** `_node_id` then `_register`. */
  function ResolveStage(w: World, fn: Fn, t: Table): Compiled<string> {
    var nid := Naming.NodeId(w, fn, t);
    if w.attrs(fn).isStage then Ok((nid, t[nid := fn])) else Err(NotAStage)
  }

  function ResolveBranches(w: World, fns: seq<Fn>, t: Table): Compiled<seq<(string, Fn)>> {
    if fns == [] then Ok(([], t))
    else
      var first :- ResolveStage(w, fns[0], t);
      var rest :- ResolveBranches(w, fns[1..], first.1);
      Ok(([(first.0, fns[0])] + rest.0, rest.1))
  }

  /** Two branches under different ids declare a common written key. */
  ghost predicate DeclareConflict(w: World, branches: seq<(string, Fn)>) {
    exists i, j :: 0 <= i < j < |branches| && PairConflicts(w, branches[i], branches[j])
  }

  predicate PairConflicts(w: World, a: (string, Fn), b: (string, Fn)) {
    var x, y := w.attrs(a.1).writeKeys, w.attrs(b.1).writeKeys;
    a.0 != b.0 && x.Some? && y.Some? && x.value * y.value != {}
  }

  ghost function ResolveBlock(w: World, fns: seq<Fn>, mode: ForkMode, t: Table): Compiled<Simple> {
    var bs :- ResolveBranches(w, fns, t);
    if DeclareConflict(w, bs.0) then Err(WriteConflict) else Ok((Block(bs.0, mode), bs.1))
  }

  /** A node inside a route body; a dict there is compiled like a stage, and rejected. */
  ghost function ResolveSimple(w: World, node: Node, t: Table): Compiled<Simple> {
    match node
    case StageNode(fn) =>
      var s :- ResolveStage(w, fn, t);
      Ok((Stage(s.0, fn), s.1))
    case ParallelNode(fns, mode) => ResolveBlock(w, fns, mode, t)
    case RouteDict(_) => Err(NotAStage)
  }

  ghost function ResolveBody(w: World, nodes: seq<Node>, t: Table): Compiled<seq<Simple>> {
    if nodes == [] then Ok(([], t))
    else
      var first :- ResolveSimple(w, nodes[0], t);
      var rest :- ResolveBody(w, nodes[1..], first.1);
      Ok(([first.0] + rest.0, rest.1))
  }

  function FoldIf(w: World, auto: bool, nodes: seq<Node>): Result<seq<Node>, CompileError> {
    if auto then Fold(w, nodes) else Ok(nodes)
  }

  ghost function ResolveRoute(w: World, auto: bool, route: (string, Body), t: Table): Compiled<RouteBody> {
    var nodes := Unwrap(route.1);
    if nodes == [] then Err(EmptyRouteBody(route.0))
    else
      var folded :- FoldIf(w, auto, nodes);
      var body :- ResolveBody(w, folded, t);
      Ok((RouteBody(route.0, body.0), body.1))
  }

  ghost function ResolveRoutes(w: World, auto: bool, routes: seq<(string, Body)>, t: Table): Compiled<seq<RouteBody>> {
    if routes == [] then Ok(([], t))
    else
      var first :- ResolveRoute(w, auto, routes[0], t);
      var rest :- ResolveRoutes(w, auto, routes[1..], first.1);
      Ok(([first.0] + rest.0, rest.1))
  }

  ghost function ResolveRouter(w: World, auto: bool, fn: Fn, routes: seq<(string, Body)>, t: Table): Compiled<RNode> {
    var s :- ResolveStage(w, fn, t);
    var rs :- ResolveRoutes(w, auto, routes, s.1);
    Ok((Router(s.0, fn, rs.0), rs.1))
  }

  /** How many source nodes the compile loop consumes at the head: a router takes its dict with it. */
  function Taken(nodes: seq<Node>): (n: nat)
    requires nodes != []
    ensures 1 <= n <= |nodes|
  {
    if nodes[0].StageNode? && |nodes| > 1 && nodes[1].RouteDict? then 2 else 1
  }

  ghost function ResolveHead(w: World, auto: bool, nodes: seq<Node>, t: Table): Compiled<RNode>
    requires nodes != []
  {
    if nodes[0].RouteDict? then Err(RouteDictWithoutRouter)
    else if Taken(nodes) == 2 then ResolveRouter(w, auto, nodes[0].fn, nodes[1].routes, t)
    else
      var s :- ResolveSimple(w, nodes[0], t);
      Ok((Plain(s.0), s.1))
  }

  /** The main loop of `compile`, on nodes already folded at top level. */
  ghost function Resolve(w: World, auto: bool, nodes: seq<Node>, t: Table): Compiled<seq<RNode>> {
    if nodes == [] then Ok(([], t))
    else
      var first :- ResolveHead(w, auto, nodes, t);
      var rest :- Resolve(w, auto, nodes[Taken(nodes)..], first.1);
      Ok(([first.0] + rest.0, rest.1))
  }

  // ------------------------------------------------------------------- code

  function InputSteps(w: World, fn: Fn): nat {
    if w.attrs(fn).input.Some? then 1 else 0
  }

  function OutputSteps(w: World, fn: Fn): nat {
    if w.attrs(fn).output.Some? then 1 else 0
  }

  function StageLength(w: World, fn: Fn): nat {
    4 + InputSteps(w, fn) + OutputSteps(w, fn)
  }

  /** The `i`th instruction of a stage; validation only where a schema is declared. */
  function StageInstr(w: World, nid: string, fn: Fn, i: nat): Instr {
    var call := 2 + InputSteps(w, fn);
    if i == 0 then Checkpoint(nid)
    else if i == 1 then EmitStepStart(nid)
    else if i < call then ValidateInput(nid)
    else if i == call then Call(nid)
    else if i < call + 1 + OutputSteps(w, fn) then ValidateOutput(nid)
    else EmitStepEnd(nid)
  }

  function StageCode(w: World, nid: string, fn: Fn): (c: seq<Instr>)
    ensures |c| == StageLength(w, fn)
    ensures forall i :: 0 <= i < |c| ==> c[i] == StageInstr(w, nid, fn, i)
  {
    seq(StageLength(w, fn), i requires 0 <= i < StageLength(w, fn) => StageInstr(w, nid, fn, i))
  }

  function Ids(branches: seq<(string, Fn)>): (ids: seq<string>)
    ensures |ids| == |branches|
    ensures forall i :: 0 <= i < |ids| ==> ids[i] == branches[i].0
  {
    if branches == [] then [] else [branches[0].0] + Ids(branches[1..])
  }

  function BlockCode(branches: seq<(string, Fn)>, mode: ForkMode): seq<Instr> {
    [EmitBranch(Ids(branches)), Fork(Ids(branches), mode)] + (if mode.Parallel? then [Join] else [])
  }

  function SimpleCode(w: World, s: Simple): (c: seq<Instr>)
    ensures |c| > 0
  {
    match s
    case Stage(nid, fn) => StageCode(w, nid, fn)
    case Block(branches, mode) => BlockCode(branches, mode)
  }

  function BodyCode(w: World, body: seq<Simple>): seq<Instr> {
    if body == [] then [] else SimpleCode(w, body[0]) + BodyCode(w, body[1..])
  }

  /** A route's body and the jump behind it. */
  function RouteCode(w: World, r: RouteBody, cont: int): seq<Instr> {
    BodyCode(w, r.body) + [Jump(cont)]
  }

  /** Every route's body, each followed by a jump to the common continuation. */
  function RoutesCode(w: World, routes: seq<RouteBody>, cont: int): seq<Instr> {
    if routes == [] then []
    else RouteCode(w, routes[0], cont) + RoutesCode(w, routes[1..], cont)
  }

  /** Where each route's body starts; as in a dict, the last entry of a name counts. */
  function RouteTargets(w: World, routes: seq<RouteBody>, base: int): map<string, int> {
    if routes == [] then map[]
    else
      map[routes[0].name := base]
      + RouteTargets(w, routes[1..], base + |RouteCode(w, routes[0], -1)|)
  }

  function RouterCode(w: World, nid: string, fn: Fn, routes: seq<RouteBody>, base: int): seq<Instr> {
    var stage := StageCode(w, nid, fn);
    var start := base + |stage| + 1;
    var cont := start + |RoutesCode(w, routes, -1)|;
    stage + [Route(RouteTargets(w, routes, start))] + RoutesCode(w, routes, cont)
  }

  function NodeCode(w: World, r: RNode, base: int): (c: seq<Instr>)
    ensures |c| > 0
  {
    match r
    case Plain(s) => SimpleCode(w, s)
    case Router(nid, fn, routes) => RouterCode(w, nid, fn, routes, base)
  }

  function Code(w: World, rs: seq<RNode>, base: int): seq<Instr> {
    if rs == [] then []
    else NodeCode(w, rs[0], base) + Code(w, rs[1..], base + |NodeCode(w, rs[0], base)|)
  }

  lemma {:induction false} CodeCons(w: World, rs: seq<RNode>, base: nat, mid: nat)
    requires rs != [] && mid == base + |NodeCode(w, rs[0], base)|
    ensures Code(w, rs, base) == NodeCode(w, rs[0], base) + Code(w, rs[1..], mid)
  {
    hide NodeCode;
  }

  function Assemble(w: World, rs: seq<RNode>, t: Table): Program {
    var code := [EmitPipelineStart] + Code(w, rs, 1) + [EmitPipelineEnd];
    Program(code, t, InputsOf(w, t), OutputsOf(w, t), w.digest(code))
  }

  /** The resolved nodes and table of a pipeline, or the error that compiling it raises. */
  ghost function Lower(w: World, auto: bool, nodes: seq<Node>): Compiled<seq<RNode>> {
    var folded :- FoldIf(w, auto, nodes);
    Resolve(w, auto, folded, map[])
  }

  // -------------------------------------------------- symbol-table stability

  /** `t'` extends `t`: ids are added, none is ever rebound. */
  predicate Extends(t: Table, t': Table) {
    forall nid | nid in t :: nid in t' && t'[nid] == t[nid]
  }

  /** Every id a resolved node uses names, in the table, the function at that source position. */
  ghost predicate Bound(t: Table, nid: string, fn: Fn) {
    nid in t && t[nid] == fn
  }

  ghost predicate SimpleBound(t: Table, s: Simple) {
    match s
    case Stage(nid, fn) => Bound(t, nid, fn)
    case Block(branches, _) => forall i :: 0 <= i < |branches| ==> Bound(t, branches[i].0, branches[i].1)
  }

  ghost predicate BodyBound(t: Table, body: seq<Simple>) {
    forall i :: 0 <= i < |body| ==> SimpleBound(t, body[i])
  }

  ghost predicate NodeBound(t: Table, r: RNode) {
    match r
    case Plain(s) => SimpleBound(t, s)
    case Router(nid, fn, routes) =>
      Bound(t, nid, fn) && forall i :: 0 <= i < |routes| ==> BodyBound(t, routes[i].body)
  }

  ghost predicate AllBound(t: Table, rs: seq<RNode>) {
    forall i :: 0 <= i < |rs| ==> NodeBound(t, rs[i])
  }

  lemma NodeBoundExtends(t: Table, t': Table, r: RNode)
    requires Extends(t, t') && NodeBound(t, r)
    ensures NodeBound(t', r)
  {
    if r.Router? {
      forall i | 0 <= i < |r.routes|
        ensures BodyBound(t', r.routes[i].body)
      {
        forall j | 0 <= j < |r.routes[i].body|
          ensures SimpleBound(t', r.routes[i].body[j])
        {
          assert SimpleBound(t, r.routes[i].body[j]);
        }
      }
    }
  }

  lemma {:induction false} BranchesStable(w: World, fns: seq<Fn>, t: Table)
    requires ResolveBranches(w, fns, t).Ok?
    ensures var r := ResolveBranches(w, fns, t).value;
            Extends(t, r.1) && |r.0| == |fns| && SimpleBound(r.1, Block(r.0, Parallel))
    ensures var r := ResolveBranches(w, fns, t).value;
            forall i :: 0 <= i < |fns| ==> r.0[i].1 == fns[i]
  {
    if fns != [] {
      var first := ResolveStage(w, fns[0], t).value;
      Naming.NodeIdNeverRebinds(w, fns[0], t);
      BranchesStable(w, fns[1..], first.1);
    }
  }

  lemma SimpleStable(w: World, node: Node, t: Table)
    requires ResolveSimple(w, node, t).Ok?
    ensures var r := ResolveSimple(w, node, t).value; Extends(t, r.1) && SimpleBound(r.1, r.0)
  {
    match node
    case StageNode(fn) => Naming.NodeIdNeverRebinds(w, fn, t);
    case ParallelNode(fns, mode) => BranchesStable(w, fns, t);
    case RouteDict(_) =>
  }

  lemma {:induction false} BodyStable(w: World, nodes: seq<Node>, t: Table)
    requires ResolveBody(w, nodes, t).Ok?
    ensures var r := ResolveBody(w, nodes, t).value; Extends(t, r.1) && BodyBound(r.1, r.0)
  {
    if nodes != [] {
      var first := ResolveSimple(w, nodes[0], t).value;
      SimpleStable(w, nodes[0], t);
      BodyStable(w, nodes[1..], first.1);
    }
  }

  lemma {:induction false} RoutesStable(w: World, auto: bool, routes: seq<(string, Body)>, t: Table)
    requires ResolveRoutes(w, auto, routes, t).Ok?
    ensures var r := ResolveRoutes(w, auto, routes, t).value;
            Extends(t, r.1) && forall i :: 0 <= i < |r.0| ==> BodyBound(r.1, r.0[i].body) && r.0[i].body != []
  {
    if routes != [] {
      var first := ResolveRoute(w, auto, routes[0], t).value;
      var folded := FoldIf(w, auto, Unwrap(routes[0].1)).value;
      BodyStable(w, folded, t);
      RoutesStable(w, auto, routes[1..], first.1);
      var rest := ResolveRoutes(w, auto, routes[1..], first.1).value;
      forall j | 0 <= j < |first.0.body|
        ensures SimpleBound(rest.1, first.0.body[j])
      {
        assert SimpleBound(first.1, first.0.body[j]);
      }
      assert BodyBound(rest.1, first.0.body);
    }
  }

  lemma HeadStable(w: World, auto: bool, nodes: seq<Node>, t: Table)
    requires nodes != [] && ResolveHead(w, auto, nodes, t).Ok?
    ensures var r := ResolveHead(w, auto, nodes, t).value; Extends(t, r.1) && NodeBound(r.1, r.0)
  {
    if Taken(nodes) == 2 {
      var s := ResolveStage(w, nodes[0].fn, t).value;
      Naming.NodeIdNeverRebinds(w, nodes[0].fn, t);
      RoutesStable(w, auto, nodes[1].routes, s.1);
    } else {
      SimpleStable(w, nodes[0], t);
    }
  }

  /** No id is ever rebound, so every id resolves to the function at its source position. */
  lemma {:induction false} ResolveStable(w: World, auto: bool, nodes: seq<Node>, t: Table)
    requires Resolve(w, auto, nodes, t).Ok?
    ensures var r := Resolve(w, auto, nodes, t).value; Extends(t, r.1) && AllBound(r.1, r.0)
    decreases |nodes|
  {
    if nodes != [] {
      var first := ResolveHead(w, auto, nodes, t).value;
      HeadStable(w, auto, nodes, t);
      ResolveStable(w, auto, nodes[Taken(nodes)..], first.1);
      var rest := Resolve(w, auto, nodes[Taken(nodes)..], first.1).value;
      NodeBoundExtends(first.1, rest.1, first.0);
    }
  }
}
