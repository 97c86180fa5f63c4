/** The compiler itself: one pass that appends to, and patches, a shared instruction list. */
module Compilers {
  import opened Primitives
  import opened Bytecode
  import opened Naming
  import opened Folding
  import opened Lowering

  /** What is left to compile, put behind what has been emitted, is the whole: or both fail alike. */
  ghost predicate StillLeadsTo<T>(whole: Compiled<T>, rest: Compiled<T>) {
    match (whole, rest)
    case (Ok(a), Ok(b)) => a.1 == b.1
    case (Err(e), Err(e')) => e == e'
    case _ => false
  }

  /** Success adds exactly the item's code and leaves its table; failure is the item's error. */
  ghost predicate Emits<T>(item: Compiled<T>, err: Option<CompileError>, value: T, table: Table,
                           before: seq<Instr>, added: seq<Instr>, after: seq<Instr>) {
    match err
    case None => item == Ok((value, table)) && after == before + added
    case Some(e) => item == Err(e)
  }

  /** Registering an id, new or already naming this function, adds its schemas and nothing else. */
  lemma RegisteredSchemas(w: World, t: Table, nid: string, fn: Fn)
    requires nid in t ==> t[nid] == fn
    ensures var a := w.attrs(fn);
            && InputsOf(w, t[nid := fn])
               == (if a.input.Some? then InputsOf(w, t)[nid := a.input.value] else InputsOf(w, t))
            && OutputsOf(w, t[nid := fn])
               == (if a.output.Some? then OutputsOf(w, t)[nid := a.output.value] else OutputsOf(w, t))
  {
  }

  /** Folding what is left, behind what has been folded, folds the whole: or both raise alike. */
  ghost predicate FoldToGo(w: World, nodes: seq<Node>, done: seq<Node>, tail: seq<Node>) {
    var rest := Fold(w, tail);
    Fold(w, nodes) == if rest.Ok? then Ok(done + rest.value) else rest
  }

  lemma FoldToGoStep(w: World, nodes: seq<Node>, done: seq<Node>, tail: seq<Node>)
    requires FoldToGo(w, nodes, done, tail) && tail != []
    ensures !Foldable(tail, 0) ==> FoldToGo(w, nodes, done + [tail[0]], tail[1..])
    ensures Foldable(tail, 0) && GroupLength(w, tail, 1).Err? ==> Fold(w, nodes) == Err(GroupLength(w, tail, 1).error)
    ensures Foldable(tail, 0) && GroupLength(w, tail, 1) == Ok(1) ==> FoldToGo(w, nodes, done + [tail[0]], tail[1..])
    ensures Foldable(tail, 0) && GroupLength(w, tail, 1).Ok? && GroupLength(w, tail, 1).value > 1 ==>
              var n := GroupLength(w, tail, 1).value;
              FoldToGo(w, nodes, done + [ParallelNode(Fns(tail, n), Parallel)], tail[n..])
  {
    if Foldable(tail, 0) && GroupLength(w, tail, 1).Ok? && GroupLength(w, tail, 1).value > 1 {
      var n := GroupLength(w, tail, 1).value;
      if Fold(w, tail[n..]).Ok? {
        AppendAssoc(done, [ParallelNode(Fns(tail, n), Parallel)], Fold(w, tail[n..]).value);
      }
    } else if Fold(w, tail[1..]).Ok? {
      AppendAssoc(done, [tail[0]], Fold(w, tail[1..]).value);
    }
  }

  lemma FoldableInTail(nodes: seq<Node>, i: nat, j: nat)
    requires i <= j <= |nodes|
    ensures var tail := nodes[i..];
            && (j < |nodes| ==> tail[j - i] == nodes[j])
            && (Foldable(tail, j - i) <==>
                  j < |nodes| && nodes[j].StageNode? && !(j + 1 < |nodes| && nodes[j + 1].RouteDict?))
  {
    assert j + 1 < |nodes| ==> nodes[i..][j - i + 1] == nodes[j + 1];
  }

  /** One turn of the inner loop of `_auto_parallelize`. */
  lemma GroupTurn(w: World, nodes: seq<Node>, n: nat, more: Result<bool, CompileError>)
    requires 1 <= n && AllFoldable(nodes, n) && Foldable(nodes, n)
    requires more == Independent(w, Fns(nodes, n), nodes[n].fn)
    ensures AllFoldable(nodes, n + 1) && Fns(nodes, n + 1) == Fns(nodes, n) + [nodes[n].fn]
    ensures GroupLength(w, nodes, n) == if more.Err? then Err(more.error)
                                        else if more.value then GroupLength(w, nodes, n + 1) else Ok(n)
  {
  }

  lemma GroupEnds(w: World, nodes: seq<Node>, n: nat)
    requires 1 <= n && AllFoldable(nodes, n)
    ensures !Foldable(nodes, n) ==> GroupLength(w, nodes, n) == Ok(n)
  {
  }

  /** The lists and dicts that `compile` creates and hands to its helpers. */
  class Compiler {
    const w: World
    const autoParallel: bool
    var instructions: seq<Instr>
    var symbolTable: Table
    var inputSchemas: map<string, Schema>
    var outputSchemas: map<string, Schema>

    constructor (w: World, autoParallel: bool)
      ensures this.w == w && this.autoParallel == autoParallel
      ensures instructions == [] && symbolTable == map[] && Valid()
    {
      this.w := w;
      this.autoParallel := autoParallel;
      instructions := [];
      symbolTable := map[];
      inputSchemas := map[];
      outputSchemas := map[];
    }

    ghost predicate Valid()
      reads this
    {
      inputSchemas == InputsOf(w, symbolTable) && outputSchemas == OutputsOf(w, symbolTable)
    }

    method FreshId(fn: Fn) returns (nid: string)
      ensures nid == NodeId(w, fn, symbolTable)
    {
      var a := w.attrs(fn);
      if a.name !in symbolTable || symbolTable[a.name] == fn {
        return a.name;
      }
      if a.qualname != "" && a.qualname != a.name && a.qualname !in symbolTable {
        return a.qualname;
      }
      var n := 2;
      while Suffixed(a.name, n) in symbolTable
        invariant 2 <= n && AllTaken(a.name, symbolTable, n)
        invariant FirstFree(a.name, symbolTable, n) == FirstFree(a.name, symbolTable, 2)
        decreases |symbolTable| + 3 - n
      {
        assert AllTaken(a.name, symbolTable, n + 1);
        TakenBound(a.name, symbolTable, n + 1);
        n := n + 1;
      }
      nid := Suffixed(a.name, n);
    }

    method Register(nid: string, fn: Fn) returns (err: Option<CompileError>)
      requires Valid() && (nid in symbolTable ==> symbolTable[nid] == fn)
      modifies this`symbolTable, this`inputSchemas, this`outputSchemas
      ensures Valid()
      ensures if w.attrs(fn).isStage then err.None? && symbolTable == old(symbolTable)[nid := fn]
              else err == Some(NotAStage)
    {
      var a := w.attrs(fn);
      if !a.isStage {
        return Some(NotAStage);
      }
      RegisteredSchemas(w, symbolTable, nid, fn);
      symbolTable := symbolTable[nid := fn];
      if a.input.Some? {
        inputSchemas := inputSchemas[nid := a.input.value];
      }
      if a.output.Some? {
        outputSchemas := outputSchemas[nid := a.output.value];
      }
      err := None;
    }

    method CompileStage(fn: Fn) returns (err: Option<CompileError>, ghost nid: string)
      requires Valid()
      modifies this
      ensures Valid()
      ensures Emits(ResolveStage(w, fn, old(symbolTable)), err, nid, symbolTable,
                    old(instructions), StageCode(w, nid, fn), instructions)
    {
      var id := FreshId(fn);
      nid := id;
      NodeIdNeverRebinds(w, fn, symbolTable);
      err := Register(id, fn);
      if err.Some? {
        return;
      }
      var code := [Checkpoint(id), EmitStepStart(id)];
      if id in inputSchemas {
        code := code + [ValidateInput(id)];
      }
      code := code + [Call(id)];
      if id in outputSchemas {
        code := code + [ValidateOutput(id)];
      }
      instructions := instructions + (code + [EmitStepEnd(id)]);
    }

    /** `_check_write_conflicts` over the branches that declare writes. */
    method CheckWriteConflicts(branches: seq<(string, Fn)>) returns (conflict: bool)
      ensures conflict <==> DeclareConflict(w, branches)
    {
      for i := 0 to |branches|
        invariant forall a, b :: 0 <= a < i && a < b < |branches| ==> !PairConflicts(w, branches[a], branches[b])
      {
        for j := i + 1 to |branches|
          invariant forall b :: i < b < j ==> !PairConflicts(w, branches[i], branches[b])
        {
          if PairConflicts(w, branches[i], branches[j]) {
            return true;
          }
        }
      }
      return false;
    }

    /** The loop of `_compile_parallel`: name and register every branch, in order. */
    method RegisterBranches(fns: seq<Fn>) returns (err: Option<CompileError>, branches: seq<(string, Fn)>)
      requires Valid()
      modifies this`symbolTable, this`inputSchemas, this`outputSchemas
      ensures Valid()
      ensures var whole := ResolveBranches(w, fns, old(symbolTable));
              if err.Some? then whole == Err(err.value) else whole == Ok((branches, symbolTable))
    {
      branches := [];
      ghost var whole := ResolveBranches(w, fns, symbolTable);
      for i := 0 to |fns|
        invariant Valid()
        invariant var rest := ResolveBranches(w, fns[i..], symbolTable);
                  StillLeadsTo(whole, rest) && (whole.Ok? ==> whole.value.0 == branches + rest.value.0)
      {
        assert fns[i..][0] == fns[i] && fns[i..][1..] == fns[i + 1..];
        NodeIdNeverRebinds(w, fns[i], symbolTable);
        var nid := FreshId(fns[i]);
        err := Register(nid, fns[i]);
        if err.Some? {
          return;
        }
        branches := branches + [(nid, fns[i])];
      }
      assert ResolveBranches(w, fns[|fns|..], symbolTable) == Ok(([], symbolTable));
      assert branches + [] == branches;
      err := None;
    }

    method CompileParallel(fns: seq<Fn>, mode: ForkMode) returns (err: Option<CompileError>, ghost block: Simple)
      requires Valid()
      modifies this
      ensures Valid()
      ensures Emits(ResolveBlock(w, fns, mode, old(symbolTable)), err, block, symbolTable,
                    old(instructions), SimpleCode(w, block), instructions)
    {
      var branches;
      err, branches := RegisterBranches(fns);
      block := Block(branches, mode);
      if err.Some? {
        return;
      }
      var conflict := CheckWriteConflicts(branches);
      if conflict {
        return Some(WriteConflict), block;
      }
      var code := [EmitBranch(Ids(branches)), Fork(Ids(branches), mode)];
      if mode.Parallel? {
        code := code + [Join];
      }
      instructions := instructions + code;
    }

    method CompileSimple(node: Node) returns (err: Option<CompileError>, ghost simple: Simple)
      requires Valid()
      modifies this
      ensures Valid()
      ensures Emits(ResolveSimple(w, node, old(symbolTable)), err, simple, symbolTable,
                    old(instructions), SimpleCode(w, simple), instructions)
    {
      simple := Block([], Parallel);
      match node
      case StageNode(fn) =>
        ghost var nid;
        err, nid := CompileStage(fn);
        simple := Stage(nid, fn);
      case ParallelNode(fns, mode) =>
        err, simple := CompileParallel(fns, mode);
      case RouteDict(_) =>
        err := Some(NotAStage);
    }

    /** The inner loop of `_compile_router_block`: one route body. */
    method CompileBody(nodes: seq<Node>) returns (err: Option<CompileError>, ghost body: seq<Simple>)
      requires Valid()
      modifies this
      ensures Valid()
      ensures Emits(ResolveBody(w, nodes, old(symbolTable)), err, body, symbolTable,
                    old(instructions), BodyCode(w, body), instructions)
    {
      ghost var whole := ResolveBody(w, nodes, symbolTable);
      body := if whole.Ok? then whole.value.0 else [];
      for i := 0 to |nodes|
        invariant Valid()
        invariant var rest := ResolveBody(w, nodes[i..], symbolTable);
                  && StillLeadsTo(whole, rest)
                  && (whole.Ok? ==>
                        old(instructions) + BodyCode(w, body) == instructions + BodyCode(w, rest.value.0))
      {
        assert nodes[i..][0] == nodes[i] && nodes[i..][1..] == nodes[i + 1..];
        ghost var before, t := instructions, symbolTable;
        ghost var simple;
        err, simple := CompileSimple(nodes[i]);
        if err.Some? {
          return;
        }
        ghost var rest := ResolveBody(w, nodes[i + 1..], symbolTable);
        if rest.Ok? {
          AppendAssoc(before, SimpleCode(w, simple), BodyCode(w, rest.value.0));
          assert ([simple] + rest.value.0)[1..] == rest.value.0;
        }
      }
      assert nodes[|nodes|..] == [];
      err := None;
    }

    method IsIndependent(group: seq<Fn>, candidate: Fn) returns (r: Result<bool, CompileError>)
      ensures r == Independent(w, group, candidate)
    {
      var c := w.attrs(candidate);
      if Falsy(c.readKeys) && Falsy(c.writeKeys) {
        return Ok(false);
      }
      for i := 0 to |group|
        invariant IndependentOfAll(w, group, candidate) == IndependentOfAll(w, group[i..], candidate)
      {
        assert group[i..][0] == group[i] && group[i..][1..] == group[i + 1..];
        var one := IndependentOf(w, group[i], candidate);
        if one != Ok(true) {
          return one;
        }
      }
      assert group[|group|..] == [];
      r := Ok(true);
    }

    /** The inner loop of `_auto_parallelize`: extend the group that starts at node `i`. */
    method Extend(nodes: seq<Node>, i: nat) returns (r: Result<seq<Fn>, CompileError>)
      requires i < |nodes| && Foldable(nodes[i..], 0)
      ensures r.Err? ==> GroupLength(w, nodes[i..], 1) == Err(r.error)
      ensures r.Ok? ==>
                && GroupLength(w, nodes[i..], 1) == Ok(|r.value|)
                && AllFoldable(nodes[i..], |r.value|) && r.value == Fns(nodes[i..], |r.value|)
    {
      hide GroupLength, Independent;
      ghost var tail := nodes[i..];
      var group := [nodes[i].fn];
      assert group == Fns(tail, 1);
      var j := i + 1;
      while j < |nodes| && nodes[j].StageNode?
        invariant i < j <= |nodes| && AllFoldable(tail, j - i) && group == Fns(tail, j - i)
        invariant GroupLength(w, tail, 1) == GroupLength(w, tail, j - i)
      {
        FoldableInTail(nodes, i, j);
        if j + 1 < |nodes| && nodes[j + 1].RouteDict? {
          break;
        }
        var more := IsIndependent(group, nodes[j].fn);
        GroupTurn(w, tail, j - i, more);
        if more.Err? {
          return Err(more.error);
        }
        if !more.value {
          return Ok(group);
        }
        group := group + [nodes[j].fn];
        j := j + 1;
      }
      FoldableInTail(nodes, i, j);
      GroupEnds(w, tail, j - i);
      r := Ok(group);
    }

    /** The body of the outer loop: the node, or block, that stands for what is at `i`, and where to go on. */
    method FoldNext(nodes: seq<Node>, i: nat, ghost done: seq<Node>) returns (r: Result<(Node, nat), CompileError>)
      requires i < |nodes| && FoldToGo(w, nodes, done, nodes[i..])
      ensures r.Err? ==> Fold(w, nodes) == Err(r.error)
      ensures r.Ok? ==> i < r.value.1 <= |nodes| && FoldToGo(w, nodes, done + [r.value.0], nodes[r.value.1..])
    {
      hide Fold, GroupLength;
      ghost var tail := nodes[i..];
      FoldToGoStep(w, nodes, done, tail);
      FoldableInTail(nodes, i, i);
      assert tail[0] == nodes[i] && tail[1..] == nodes[i + 1..];
      if !nodes[i].StageNode? || (i + 1 < |nodes| && nodes[i + 1].RouteDict?) {
        return Ok((nodes[i], i + 1));
      }
      var group := Extend(nodes, i);
      if group.Err? {
        return Err(group.error);
      }
      if |group.value| > 1 {
        assert tail[|group.value|..] == nodes[i + |group.value|..];
        return Ok((ParallelNode(group.value, Parallel), i + |group.value|));
      }
      r := Ok((nodes[i], i + 1));
    }

    method AutoParallelize(nodes: seq<Node>) returns (r: Result<seq<Node>, CompileError>)
      ensures r == Fold(w, nodes)
    {
      var result: seq<Node> := [];
      var i := 0;
      assert nodes[0..] == nodes;
      assert FoldToGo(w, nodes, [], nodes) by {
        if Fold(w, nodes).Ok? {
          assert [] + Fold(w, nodes).value == Fold(w, nodes).value;
        }
      }
      while i < |nodes|
        invariant i <= |nodes|
        invariant FoldToGo(w, nodes, result, nodes[i..])
      {
        var turn := FoldNext(nodes, i, result);
        if turn.Err? {
          return Err(turn.error);
        }
        result := result + [turn.value.0];
        i := turn.value.1;
      }
      assert nodes[|nodes|..] == [] && result + [] == result;
      r := Ok(result);
    }

    method Normalize(nodes: seq<Node>) returns (r: Result<seq<Node>, CompileError>)
      ensures r == FoldIf(w, autoParallel, nodes)
    {
      if autoParallel {
        r := AutoParallelize(nodes);
      } else {
        r := Ok(nodes);
      }
    }

    /** One pass of the route loop: the body of a route, with its jump still a placeholder. */
    method CompileRoute(route: (string, Body)) returns (err: Option<CompileError>, ghost body: RouteBody)
      requires Valid()
      modifies this
      ensures Valid()
      ensures Emits(ResolveRoute(w, autoParallel, route, old(symbolTable)), err, body, symbolTable,
                    old(instructions), RouteCode(w, body, -1), instructions)
    {
      body := RouteBody(route.0, []);
      var subNodes := Unwrap(route.1);
      if subNodes == [] {
        return Some(EmptyRouteBody(route.0)), body;
      }
      var normalized := Normalize(subNodes);
      if normalized.Err? {
        return Some(normalized.error), body;
      }
      ghost var code;
      err, code := CompileBody(normalized.value);
      if err.Some? {
        return;
      }
      body := RouteBody(route.0, code);
      instructions := instructions + [Jump(-1)];
    }

    /** Turn `i` of the route loop: note where the route starts, compile it, note where its jump stands. */
    method CompileRouteTurn(routes: seq<(string, Body)>, i: nat, ips: map<string, int>, jumps: seq<nat>,
                            ghost whole: Compiled<seq<RouteBody>>, ghost start: seq<Instr>)
      returns (err: Option<CompileError>, ips': map<string, int>, jumps': seq<nat>)
      requires Valid() && i < |routes|
      requires RoutesAt(w, autoParallel, whole, routes, i, symbolTable, start, instructions, ips, jumps)
      modifies this
      ensures Valid()
      ensures match err
              case None =>
                RoutesAt(w, autoParallel, whole, routes, i + 1, symbolTable, start, instructions, ips', jumps')
              case Some(e) => whole == Err(e)
    {
      ghost var table0, code0 := symbolTable, instructions;
      ips' := ips[routes[i].0 := |instructions|];
      jumps' := jumps;
      ghost var body;
      err, body := CompileRoute(routes[i]);
      if err.Some? {
        RoutesAtFails(w, autoParallel, whole, routes, i, table0, start, code0, ips, jumps);
        return;
      }
      jumps' := jumps + [|instructions| - 1];
      RoutesAtStep(w, autoParallel, whole, routes, i, table0, start, code0, ips, jumps,
                   body, symbolTable, instructions, ips', jumps');
    }

    /** The route loop of `_compile_router_block`, behind the ROUTE placeholder. */
    method CompileRoutes(routes: seq<(string, Body)>)
      returns (err: Option<CompileError>, routeMapIps: map<string, int>, jumpPositions: seq<nat>,
               ghost all: seq<RouteBody>)
      requires Valid()
      modifies this
      ensures Valid()
      ensures Emits(ResolveRoutes(w, autoParallel, routes, old(symbolTable)), err, all, symbolTable,
                    old(instructions), RoutesCode(w, all, -1), instructions)
      ensures err.None? ==>
                && routeMapIps == RouteTargets(w, all, |old(instructions)|)
                && ExactlyTheJumps(instructions, |old(instructions)|, jumpPositions)
    {
      routeMapIps := map[];
      jumpPositions := [];
      ghost var start := instructions;
      ghost var whole := ResolveRoutes(w, autoParallel, routes, symbolTable);
      all := if whole.Ok? then whole.value.0 else [];
      RoutesLeftStart(w, whole, start);
      assert routes[0..] == routes;
      for i := 0 to |routes|
        invariant Valid()
        invariant RoutesAt(w, autoParallel, whole, routes, i, symbolTable, start, instructions,
                           routeMapIps, jumpPositions)
      {
        err, routeMapIps, jumpPositions := CompileRouteTurn(routes, i, routeMapIps, jumpPositions, whole, start);
        if err.Some? {
          return;
        }
      }
      RoutesAtEnd(w, autoParallel, whole, routes, symbolTable, start, instructions, routeMapIps, jumpPositions);
      err := None;
    }

    /** `_compile_router_block`: placeholders first, patched once the continuation is known. */
    method CompileRouterBlock(router: Fn, routes: seq<(string, Body)>)
      returns (err: Option<CompileError>, ghost node: RNode)
      requires Valid()
      modifies this
      ensures Valid()
      ensures Emits(ResolveRouter(w, autoParallel, router, routes, old(symbolTable)), err, node, symbolTable,
                    old(instructions), NodeCode(w, node, |old(instructions)|), instructions)
    {
      ghost var nid, all;
      err, nid := CompileStage(router);
      node := Router(nid, router, []);
      if err.Some? {
        return;
      }
      var placeholder := |instructions|;
      instructions := instructions + [Route(map[])];
      var routeMapIps, jumpPositions;
      err, routeMapIps, jumpPositions, all := CompileRoutes(routes);
      if err.Some? {
        return;
      }
      node := Router(nid, router, all);
      ghost var unpatched := instructions;
      Patch(placeholder, routeMapIps, jumpPositions);
      RouterDone(w, old(instructions), node, unpatched, routeMapIps, jumpPositions, instructions);
    }

    /** The end of `_compile_router_block`: write the targets into ROUTE and every JUMP. */
    method Patch(placeholder: nat, routeMapIps: map<string, int>, jumpPositions: seq<nat>)
      requires placeholder < |instructions|
      requires forall i :: 0 <= i < |jumpPositions| ==> placeholder < jumpPositions[i] < |instructions|
      modifies this`instructions
      ensures PatchedSoFar(old(instructions), instructions, placeholder, routeMapIps, jumpPositions)
    {
      var continuation := |instructions|;
      instructions := instructions[placeholder := Route(routeMapIps)];
      for i := 0 to |jumpPositions|
        invariant PatchedSoFar(old(instructions), instructions, placeholder, routeMapIps, jumpPositions[..i])
      {
        instructions := instructions[jumpPositions[i] := Jump(continuation)];
      }
      assert jumpPositions[..|jumpPositions|] == jumpPositions;
    }

    /** One pass of the main loop: the node at `i`, with its dict if it is a router. */
    method CompileHead(ns: seq<Node>, i: nat) returns (err: Option<CompileError>, ghost node: RNode, next: nat)
      requires Valid() && i < |ns|
      modifies this
      ensures Valid()
      ensures Emits(ResolveHead(w, autoParallel, ns[i..], old(symbolTable)), err, node, symbolTable,
                    old(instructions), NodeCode(w, node, |old(instructions)|), instructions)
      ensures err.None? ==>
                && next == i + Taken(ns[i..])
    {
      assert ns[i..][0] == ns[i] && (i + 1 < |ns| ==> ns[i..][1] == ns[i + 1]);
      node := Plain(Block([], Parallel));
      next := i + 1;
      match ns[i]
      case RouteDict(_) =>
        err := Some(RouteDictWithoutRouter);
      case ParallelNode(fns, mode) =>
        ghost var block;
        err, block := CompileParallel(fns, mode);
        node := Plain(block);
      case StageNode(fn) =>
        if i + 1 < |ns| && ns[i + 1].RouteDict? {
          err, node := CompileRouterBlock(fn, ns[i + 1].routes);
          next := i + 2;
        } else {
          ghost var nid;
          err, nid := CompileStage(fn);
          node := Plain(Stage(nid, fn));
        }
    }

    method Compile(nodes: seq<Node>) returns (r: Result<Program, CompileError>)
      requires Valid() && instructions == [] && symbolTable == map[]
      modifies this
      ensures var lowered := Lower(w, autoParallel, nodes);
              r == if lowered.Err? then Err(lowered.error) else Ok(Assemble(w, lowered.value.0, lowered.value.1))
      ensures r.Ok? ==> r.value.version == w.digest(r.value.code)
    {
      instructions := [EmitPipelineStart];
      var normalized := Normalize(nodes);
      if normalized.Err? {
        return Err(normalized.error);
      }
      var ns := normalized.value;
      ghost var whole := Resolve(w, autoParallel, ns, symbolTable);
      var i := 0;
      assert ns[0..] == ns;
      while i < |ns|
        invariant i <= |ns| && Valid()
        invariant NodesLeft(w, whole, Resolve(w, autoParallel, ns[i..], symbolTable), instructions)
      {
        ghost var tail, code0, table0 := ns[i..], instructions, symbolTable;
        ghost var node;
        var err;
        err, node, i := CompileHead(ns, i);
        if err.Some? {
          return Err(err.value);
        }
        assert ns[i..] == tail[Taken(tail)..];
        NodesLeftStep(w, whole, Resolve(w, autoParallel, tail, table0),
                      Resolve(w, autoParallel, ns[i..], symbolTable), code0, node, instructions);
      }
      assert ns[|ns|..] == [] && instructions + [] == instructions;
      instructions := instructions + [EmitPipelineEnd];
      var version := w.digest(instructions);
      r := Ok(Program(instructions, symbolTable, inputSchemas, outputSchemas, version));
    }
  }

  // ------------------------------------------------------- layout bookkeeping

  /** The code emitted so far, then the code of what is left, is the code of the whole. */
  ghost predicate NodesLeft(w: World, whole: Compiled<seq<RNode>>, rest: Compiled<seq<RNode>>, code: seq<Instr>) {
    && StillLeadsTo(whole, rest)
    && (whole.Ok? ==>
          [EmitPipelineStart] + Code(w, whole.value.0, 1) == code + Code(w, rest.value.0, |code|))
  }

  lemma NodesLeftStep(w: World, whole: Compiled<seq<RNode>>, rest: Compiled<seq<RNode>>,
                      rest': Compiled<seq<RNode>>, code: seq<Instr>, node: RNode, code': seq<Instr>)
    requires NodesLeft(w, whole, rest, code)
    requires rest == if rest'.Ok? then Ok(([node] + rest'.value.0, rest'.value.1)) else Err(rest'.error)
    requires code' == code + NodeCode(w, node, |code|)
    ensures NodesLeft(w, whole, rest', code')
  {
    if rest'.Ok? {
      CodeUnfold(w, node, rest'.value.0, code, |code|, |code'|);
    }
  }

  lemma CodeUnfold(w: World, node: RNode, rest: seq<RNode>, code: seq<Instr>, base: nat, mid: nat)
    requires base == |code| && mid == base + |NodeCode(w, node, base)|
    ensures code + Code(w, [node] + rest, base) == (code + NodeCode(w, node, base)) + Code(w, rest, mid)
  {
    assert ([node] + rest)[1..] == rest;
    CodeCons(w, [node] + rest, base, mid);
    AppendAssoc(code, NodeCode(w, node, base), Code(w, rest, mid));
  }

  /** What the route loop has emitted and what is left make up the whole block of routes. */
  ghost predicate RoutesToGo(w: World, start: seq<Instr>, all: seq<RouteBody>,
                             code: seq<Instr>, ips: map<string, int>, rest: seq<RouteBody>) {
    && start + RoutesCode(w, all, -1) == code + RoutesCode(w, rest, -1)
    && RouteTargets(w, all, |start|) == ips + RouteTargets(w, rest, |code|)
  }

  ghost predicate RoutesLeft(w: World, whole: Compiled<seq<RouteBody>>, rest: Compiled<seq<RouteBody>>,
                             start: seq<Instr>, code: seq<Instr>, ips: map<string, int>, jumps: seq<nat>) {
    && StillLeadsTo(whole, rest)
    && (whole.Ok? ==> RoutesToGo(w, start, whole.value.0, code, ips, rest.value.0))
    && |start| <= |code| && ExactlyTheJumps(code, |start|, jumps)
  }

  lemma RoutesLeftStart(w: World, whole: Compiled<seq<RouteBody>>, start: seq<Instr>)
    ensures RoutesLeft(w, whole, whole, start, start, map[], [])
  {
    if whole.Ok? {
      assert map[] + RouteTargets(w, whole.value.0, |start|) == RouteTargets(w, whole.value.0, |start|);
    }
  }

  lemma RoutesLeftDone(w: World, whole: Compiled<seq<RouteBody>>, t: Table,
                       start: seq<Instr>, code: seq<Instr>, ips: map<string, int>, jumps: seq<nat>)
    requires RoutesLeft(w, whole, Ok(([], t)), start, code, ips, jumps)
    ensures whole.Ok? && whole.value.1 == t
    ensures code == start + RoutesCode(w, whole.value.0, -1)
    ensures ips == RouteTargets(w, whole.value.0, |start|)
    ensures ExactlyTheJumps(code, |start|, jumps)
  {
    assert code + [] == code && ips + map[] == ips;
  }

  lemma RoutesLeftStep(w: World, whole: Compiled<seq<RouteBody>>, rest: Compiled<seq<RouteBody>>,
                       rest': Compiled<seq<RouteBody>>, start: seq<Instr>,
                       code: seq<Instr>, ips: map<string, int>, jumps: seq<nat>, body: RouteBody,
                       code': seq<Instr>, ips': map<string, int>, jumps': seq<nat>)
    requires RoutesLeft(w, whole, rest, start, code, ips, jumps)
    requires rest == if rest'.Ok? then Ok(([body] + rest'.value.0, rest'.value.1)) else Err(rest'.error)
    requires code' == code + RouteCode(w, body, -1) && ips' == ips[body.name := |code|]
    requires jumps' == jumps + [|code'| - 1]
    ensures RoutesLeft(w, whole, rest', start, code', ips', jumps')
  {
    assert Front(jumps') == jumps;
    NewJump(code, |start|, w, body, jumps');
    if rest'.Ok? {
      RoutesToGoStep(w, start, whole.value.0, code, ips, body, rest'.value.0, code', ips');
    }
  }

  /** `RoutesLeft` in the route loop, before its turn `i`. */
  ghost predicate RoutesAt(w: World, auto: bool, whole: Compiled<seq<RouteBody>>, routes: seq<(string, Body)>, i: nat,
                           t: Table, start: seq<Instr>, code: seq<Instr>, ips: map<string, int>, jumps: seq<nat>)
  {
    if i <= |routes| then RoutesLeft(w, whole, ResolveRoutes(w, auto, routes[i..], t), start, code, ips, jumps)
    else false
  }

  lemma RoutesTurn(w: World, auto: bool, routes: seq<(string, Body)>, i: nat, t: Table)
    requires i < |routes|
    ensures var rest, first := ResolveRoutes(w, auto, routes[i..], t), ResolveRoute(w, auto, routes[i], t);
            if first.Err? then rest == Err(first.error)
            else
              var rest' := ResolveRoutes(w, auto, routes[i + 1..], first.value.1);
              rest == if rest'.Ok? then Ok(([first.value.0] + rest'.value.0, rest'.value.1)) else Err(rest'.error)
  {
    assert routes[i..][0] == routes[i] && routes[i..][1..] == routes[i + 1..];
  }

  lemma RoutesAtFails(w: World, auto: bool, whole: Compiled<seq<RouteBody>>, routes: seq<(string, Body)>, i: nat,
                      t: Table, start: seq<Instr>, code: seq<Instr>, ips: map<string, int>, jumps: seq<nat>)
    requires RoutesAt(w, auto, whole, routes, i, t, start, code, ips, jumps)
    requires i < |routes| && ResolveRoute(w, auto, routes[i], t).Err?
    ensures whole == Err(ResolveRoute(w, auto, routes[i], t).error)
  {
    RoutesTurn(w, auto, routes, i, t);
  }

  lemma RoutesAtStep(w: World, auto: bool, whole: Compiled<seq<RouteBody>>, routes: seq<(string, Body)>, i: nat,
                     t: Table, start: seq<Instr>, code: seq<Instr>, ips: map<string, int>, jumps: seq<nat>,
                     body: RouteBody, t': Table, code': seq<Instr>, ips': map<string, int>, jumps': seq<nat>)
    requires RoutesAt(w, auto, whole, routes, i, t, start, code, ips, jumps)
    requires i < |routes| && ResolveRoute(w, auto, routes[i], t) == Ok((body, t'))
    requires code' == code + RouteCode(w, body, -1) && ips' == ips[routes[i].0 := |code|]
    requires jumps' == jumps + [|code'| - 1]
    ensures RoutesAt(w, auto, whole, routes, i + 1, t', start, code', ips', jumps')
  {
    RoutesTurn(w, auto, routes, i, t);
    RoutesLeftStep(w, whole, ResolveRoutes(w, auto, routes[i..], t), ResolveRoutes(w, auto, routes[i + 1..], t'), start,
                   code, ips, jumps, body, code', ips', jumps');
  }

  lemma RoutesAtEnd(w: World, auto: bool, whole: Compiled<seq<RouteBody>>, routes: seq<(string, Body)>, t: Table,
                    start: seq<Instr>, code: seq<Instr>, ips: map<string, int>, jumps: seq<nat>)
    requires RoutesAt(w, auto, whole, routes, |routes|, t, start, code, ips, jumps)
    ensures whole.Ok? && whole.value.1 == t
    ensures code == start + RoutesCode(w, whole.value.0, -1)
    ensures ips == RouteTargets(w, whole.value.0, |start|)
    ensures ExactlyTheJumps(code, |start|, jumps)
  {
    assert routes[|routes|..] == [];
    RoutesLeftDone(w, whole, t, start, code, ips, jumps);
  }

  lemma RoutesToGoStep(w: World, start: seq<Instr>, all: seq<RouteBody>, code: seq<Instr>, ips: map<string, int>,
                       body: RouteBody, rest: seq<RouteBody>, code': seq<Instr>, ips': map<string, int>)
    requires RoutesToGo(w, start, all, code, ips, [body] + rest)
    requires code' == code + RouteCode(w, body, -1) && ips' == ips[body.name := |code|]
    ensures RoutesToGo(w, start, all, code', ips', rest)
  {
    var base, mid := |code|, |code'|;
    RoutesUnfold(w, body, rest, base, mid);
    AppendAssoc(code, RouteCode(w, body, -1), RoutesCode(w, rest, -1));
    OverlayAssoc(ips, body.name, base, RouteTargets(w, rest, mid));
  }

  lemma OverlayAssoc(ips: map<string, int>, name: string, ip: int, rest: map<string, int>)
    ensures ips + (map[name := ip] + rest) == ips[name := ip] + rest
  {
  }

  lemma RoutesUnfold(w: World, body: RouteBody, rest: seq<RouteBody>, base: nat, mid: nat)
    requires mid == base + |RouteCode(w, body, -1)|
    ensures RoutesCode(w, [body] + rest, -1) == RouteCode(w, body, -1) + RoutesCode(w, rest, -1)
    ensures RouteTargets(w, [body] + rest, base) == map[body.name := base] + RouteTargets(w, rest, mid)
  {
    assert ([body] + rest)[1..] == rest;
  }

  /** From position `from` on, the jumps of `code` stand exactly at `positions`. */
  ghost predicate ExactlyTheJumps(code: seq<Instr>, from: nat, positions: seq<nat>) {
    && (forall i :: 0 <= i < |positions| ==> from <= positions[i] < |code|)
    && forall p :: from <= p < |code| ==> (code[p].Jump? <==> p in positions)
  }

  lemma {:induction false} BodyHasNoJump(w: World, body: seq<Simple>)
    ensures forall i :: 0 <= i < |BodyCode(w, body)| ==> !BodyCode(w, body)[i].Jump? && !BodyCode(w, body)[i].Route?
  {
    if body != [] {
      BodyHasNoJump(w, body[1..]);
    }
  }

  lemma NewJump(code: seq<Instr>, from: nat, w: World, body: RouteBody, positions: seq<nat>)
    requires positions != [] && ExactlyTheJumps(code, from, Front(positions)) && from <= |code|
    requires Last(positions) == |code| + |BodyCode(w, body.body)|
    ensures ExactlyTheJumps(code + RouteCode(w, body, -1), from, positions)
  {
    BodyHasNoJump(w, body.body);
    var code' := code + RouteCode(w, body, -1);
    forall p | from <= p < |code'|
      ensures code'[p].Jump? <==> p in positions
    {
      assert p in positions <==> p in Front(positions) || p == Last(positions);
      if p >= |code| {
        assert p !in Front(positions);
      }
    }
  }

  /** Writing the continuation into every placeholder jump turns one layout into the other. */
  lemma {:induction false} RoutesPatched(w: World, routes: seq<RouteBody>, cont: int)
    ensures var a, b := RoutesCode(w, routes, -1), RoutesCode(w, routes, cont);
            |a| == |b| && forall k :: 0 <= k < |a| ==> b[k] == if a[k].Jump? then Jump(cont) else a[k]
  {
    if routes != [] {
      RoutesPatched(w, routes[1..], cont);
      BodyHasNoJump(w, routes[0].body);
    }
  }

  ghost predicate PatchedSoFar(unpatched: seq<Instr>, code: seq<Instr>, placeholder: nat,
                               targets: map<string, int>, positions: seq<nat>) {
    && |code| == |unpatched|
    && forall p :: 0 <= p < |unpatched| ==>
         code[p] == if p in positions then Jump(|unpatched|)
                    else if p == placeholder then Route(targets)
                    else unpatched[p]
  }

  /** One position of a router's code, before and after patching. */
  lemma PatchedAt(before: seq<Instr>, a: seq<Instr>, b: seq<Instr>, targets: map<string, int>, positions: seq<nat>,
                  unpatched: seq<Instr>, code: seq<Instr>, p: nat)
    requires unpatched == before + [Route(map[])] + a && |a| == |b| && p < |code|
    requires forall k :: 0 <= k < |a| ==> b[k] == if a[k].Jump? then Jump(|unpatched|) else a[k]
    requires ExactlyTheJumps(unpatched, |before| + 1, positions)
    requires PatchedSoFar(unpatched, code, |before|, targets, positions)
    ensures |code| == |before + [Route(targets)] + b| && code[p] == (before + [Route(targets)] + b)[p]
  {
    var goal := before + [Route(targets)] + b;
    if p > |before| {
      var k := p - |before| - 1;
      assert unpatched[p] == a[k] && goal[p] == b[k];
    } else {
      assert p !in positions;
      assert goal[p] == if p == |before| then Route(targets) else before[p];
      assert p < |before| ==> unpatched[p] == before[p];
    }
  }

  /** Patching the ROUTE placeholder and every jump placeholder gives the router's final code. */
  lemma PatchedRouter(w: World, before: seq<Instr>, routes: seq<RouteBody>, targets: map<string, int>,
                      positions: seq<nat>, code: seq<Instr>)
    requires var unpatched := before + [Route(map[])] + RoutesCode(w, routes, -1);
             && ExactlyTheJumps(unpatched, |before| + 1, positions)
             && PatchedSoFar(unpatched, code, |before|, targets, positions)
    ensures code == before + [Route(targets)] + RoutesCode(w, routes, |code|)
  {
    var a, b := RoutesCode(w, routes, -1), RoutesCode(w, routes, |code|);
    var unpatched := before + [Route(map[])] + a;
    RoutesPatched(w, routes, |code|);
    forall p: nat | p < |code|
      ensures |code| == |before + [Route(targets)] + b| && code[p] == (before + [Route(targets)] + b)[p]
    {
      PatchedAt(before, a, b, targets, positions, unpatched, code, p);
    }
    assert |code| == |before + [Route(targets)] + b|;
  }

  lemma RouterDone(w: World, start: seq<Instr>, node: RNode, unpatched: seq<Instr>, targets: map<string, int>,
                   positions: seq<nat>, code: seq<Instr>)
    requires node.Router?
    requires var before := start + StageCode(w, node.nid, node.fn);
             && unpatched == before + [Route(map[])] + RoutesCode(w, node.routes, -1)
             && targets == RouteTargets(w, node.routes, |before| + 1)
             && ExactlyTheJumps(unpatched, |before| + 1, positions)
             && PatchedSoFar(unpatched, code, |before|, targets, positions)
    ensures code == start + NodeCode(w, node, |start|)
  {
    hide RouterCode, RoutesCode, StageCode, RouteTargets;
    var before := start + StageCode(w, node.nid, node.fn);
    PatchedRouter(w, before, node.routes, targets, positions, code);
    RouterLayout(w, start, node.nid, node.fn, node.routes, code);
  }

  lemma RouterLayout(w: World, start: seq<Instr>, nid: string, fn: Fn, routes: seq<RouteBody>, code: seq<Instr>)
    requires var stage := StageCode(w, nid, fn);
             && code == (start + stage) + [Route(RouteTargets(w, routes, |start| + |stage| + 1))]
                        + RoutesCode(w, routes, |code|)
    ensures code == start + RouterCode(w, nid, fn, routes, |start|)
  {
    hide RouterCode, RoutesCode, StageCode, RouteTargets;
    var stage, routesCode := StageCode(w, nid, fn), RoutesCode(w, routes, |code|);
    var route := [Route(RouteTargets(w, routes, |start| + |stage| + 1))];
    RoutesAsLong(w, routes, |code|);
    RouterCodeIs(w, nid, fn, routes, |start|, |code|);
    FourParts(start, stage, route, routesCode);
  }

  lemma RoutesAsLong(w: World, routes: seq<RouteBody>, cont: int)
    ensures |RoutesCode(w, routes, cont)| == |RoutesCode(w, routes, -1)|
  {
    RoutesPatched(w, routes, cont);
  }

  lemma FourParts(a: seq<Instr>, b: seq<Instr>, c: seq<Instr>, d: seq<Instr>)
    ensures (a + b) + c + d == a + (b + c + d)
  {
  }

  lemma RouterCodeIs(w: World, nid: string, fn: Fn, routes: seq<RouteBody>, base: nat, cont: nat)
    requires cont == base + |StageCode(w, nid, fn)| + 1 + |RoutesCode(w, routes, -1)|
    ensures var stage := StageCode(w, nid, fn);
            RouterCode(w, nid, fn, routes, base)
            == stage + [Route(RouteTargets(w, routes, base + |stage| + 1))] + RoutesCode(w, routes, cont)
  {
  }
}
