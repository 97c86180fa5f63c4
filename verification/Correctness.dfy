/** Compiler correctness: running the compiled code means walking the nodes. */
module Correctness {
  import opened Primitives
  import opened Contexts
  import opened Bytecode
  import opened Folding
  import opened Lowering
  import opened Runs
  import opened TreeSemantics
  import opened Vm
  import ControlFlow

  /** Fragment `c` stands in the program at `base`. */
  ghost predicate At(p: Program, base: nat, c: seq<Instr>) {
    base + |c| <= |p.code| && p.code[base..base + |c|] == c
  }

  /** A program whose schema dicts belong to its table, as `Assemble` builds it. */
  ghost predicate WellBuilt(w: World, p: Program) {
    Forward(p.code) && p.inputs == InputsOf(w, p.table) && p.outputs == OutputsOf(w, p.table)
  }

  lemma AtIndex(p: Program, base: nat, c: seq<Instr>, i: nat)
    requires At(p, base, c) && i < |c|
    ensures base + i < |p.code| && p.code[base + i] == c[i]
  {
    assert p.code[base..base + |c|][i] == p.code[base + i];
  }

  lemma AtSplit(p: Program, base: nat, a: seq<Instr>, b: seq<Instr>)
    requires At(p, base, a + b)
    ensures At(p, base, a) && At(p, base + |a|, b)
  {
    var c := a + b;
    assert p.code[base..base + |a|] == c[..|a|] == a by {
      forall i | 0 <= i < |a|
        ensures p.code[base + i] == a[i]
      {
        AtIndex(p, base, c, i);
      }
    }
    assert p.code[base + |a|..base + |a| + |b|] == c[|a|..] == b by {
      forall i | 0 <= i < |b|
        ensures p.code[base + |a| + i] == b[i]
      {
        AtIndex(p, base, c, |a| + i);
      }
    }
  }

  function FlowOf(s: State): Flow {
    Flow(s.ctx, s.pending, s.trace)
  }

  /** From `s`, the program behaves as the walk `r` does up to `ip`, where the run goes on in `s'`. */
  ghost predicate Follows(w: World, p: Program, d: bool, s: State, r: Ran, ip: nat, s': State)
    requires Forward(p.code)
  {
    match r
    case Ran(f) => Exec(w, p, d, s) == Exec(w, p, d, s') && s'.ip == ip && FlowOf(s') == f && s'.timers == []
    case Stopped(e, trace) => Observed(p, Exec(w, p, d, s)) == Failure(e, trace)
  }

  lemma ExecNext(w: World, p: Program, d: bool, s: State, s': State)
    requires Forward(p.code) && s.ip < |p.code| && Step(w, p, d, s) == Next(s')
    ensures Exec(w, p, d, s) == Exec(w, p, d, s')
  {
  }

  /** A fault outside a ROUTE, with at most one span open. */
  lemma ExecFault(w: World, p: Program, d: bool, s: State, e: Error)
    requires Forward(p.code) && s.ip < |p.code| && Step(w, p, d, s) == Fault(e) && !p.code[s.ip].Route?
    ensures s.timers == [] ==>
              Observed(p, Exec(w, p, d, s)) == Failure(e, s.trace + [Errored(CurrentStep(p.code, s.ip))])
    ensures forall nid :: s.timers == [nid] ==>
              Observed(p, Exec(w, p, d, s))
              == Failure(e, s.trace + [StepEnded(nid)] + [Errored(CurrentStep(p.code, s.ip))])
  {
    assert Exec(w, p, d, s) == Failed(s, e);
    if |s.timers| == 1 {
      assert s.timers == [s.timers[0]] && Ends([s.timers[0]]) == [StepEnded(s.timers[0])];
    }
    assert s.trace + [] == s.trace;
  }

  /** The instructions of a stage, one by one. */
  ghost predicate StageAt(w: World, p: Program, ip: nat, nid: string, fn: Fn) {
    var a, b := InputSteps(w, fn), OutputSteps(w, fn);
    && ip + StageLength(w, fn) <= |p.code|
    && p.code[ip] == Checkpoint(nid) && p.code[ip + 1] == EmitStepStart(nid)
    && (a == 1 ==> p.code[ip + 2] == ValidateInput(nid))
    && p.code[ip + 2 + a] == Call(nid)
    && (b == 1 ==> p.code[ip + 3 + a] == ValidateOutput(nid))
    && p.code[ip + 3 + a + b] == EmitStepEnd(nid)
  }

  lemma StageCodeShape(w: World, p: Program, ip: nat, nid: string, fn: Fn)
    requires At(p, ip, StageCode(w, nid, fn))
    ensures StageAt(w, p, ip, nid, fn) && |StageCode(w, nid, fn)| == StageLength(w, fn)
  {
    var c, a, b := StageCode(w, nid, fn), InputSteps(w, fn), OutputSteps(w, fn);
    AtIndex(p, ip, c, 0);
    AtIndex(p, ip, c, 1);
    AtIndex(p, ip, c, 2);
    AtIndex(p, ip, c, 2 + a);
    AtIndex(p, ip, c, 3 + a);
    AtIndex(p, ip, c, 3 + a + b);
  }

  lemma InputOf(w: World, p: Program, nid: string, fn: Fn, data: Data)
    requires WellBuilt(w, p) && Bound(p.table, nid, fn)
    ensures Validates(w, p.inputs, nid, data) == Accepts(w, w.attrs(fn).input, data)
    ensures Validates(w, p.outputs, nid, data) == Accepts(w, w.attrs(fn).output, data)
  {
  }

  /** After the call: output validation and the end of the step. */
  lemma StageTail(w: World, p: Program, d: bool, s: State, nid: string, fn: Fn, ip: nat) returns (s': State)
    requires WellBuilt(w, p) && Bound(p.table, nid, fn) && StageAt(w, p, ip, nid, fn)
    requires s.ip == ip + 3 + InputSteps(w, fn) && s.timers == [nid]
    ensures Follows(w, p, d, s, FinishStage(w, nid, fn, s.ctx, s.pending, s.trace), ip + StageLength(w, fn), s')
  {
    var t := s;
    s' := s;
    if w.attrs(fn).output.Some? {
      InputOf(w, p, nid, fn, s.ctx.data);
      if !Accepts(w, w.attrs(fn).output, s.ctx.data) {
        ExecFault(w, p, d, s, OutputInvalid(nid));
        return;
      }
      t := Advance(s);
      ExecNext(w, p, d, s, t);
    }
    s' := Advance(Logged(t, StepEnded(nid)).(timers := []));
    assert CloseTimer([nid], nid) == [];
    ExecNext(w, p, d, t, s');
  }

  /** From the checkpoint to the start of the step. */
  lemma StageOpen(w: World, p: Program, d: bool, s: State, nid: string, fn: Fn) returns (s': State)
    requires WellBuilt(w, p) && StageAt(w, p, s.ip, nid, fn) && s.timers == []
    ensures Exec(w, p, d, s) == Exec(w, p, d, s') && s'.ip == s.ip + 2
    ensures FlowOf(s') == Flow(s.ctx, s.pending, s.trace + [StepStarted(nid)]) && s'.timers == [nid]
  {
    var s1 := Step(w, p, d, s).s;
    ExecNext(w, p, d, s, s1);
    s' := Step(w, p, d, s1).s;
    ExecNext(w, p, d, s1, s');
  }

  /** Input validation, if the stage has a schema. */
  lemma StageInput(w: World, p: Program, d: bool, s: State, nid: string, fn: Fn, ip: nat) returns (s': State)
    requires WellBuilt(w, p) && Bound(p.table, nid, fn) && StageAt(w, p, ip, nid, fn)
    requires s.ip == ip + 2 && s.timers == [nid]
    ensures if Accepts(w, w.attrs(fn).input, s.ctx.data) then
              Exec(w, p, d, s) == Exec(w, p, d, s') && s' == s.(ip := s.ip + InputSteps(w, fn))
            else
              Observed(p, Exec(w, p, d, s)) == Failure(InputInvalid(nid), s.trace + [StepEnded(nid)] + [Errored(nid)])
  {
    s' := s;
    if w.attrs(fn).input.Some? {
      InputOf(w, p, nid, fn, s.ctx.data);
      if Accepts(w, w.attrs(fn).input, s.ctx.data) {
        s' := Advance(s);
        ExecNext(w, p, d, s, s');
      } else {
        ExecFault(w, p, d, s, InputInvalid(nid));
      }
    }
  }

  lemma StageCall(w: World, p: Program, d: bool, s: State, nid: string, fn: Fn, ip: nat) returns (s': State)
    requires WellBuilt(w, p) && Bound(p.table, nid, fn) && StageAt(w, p, ip, nid, fn)
    requires s.ip == ip + 2 + InputSteps(w, fn) && s.timers == [nid]
    ensures var c := Called(nid, w.call(nid, fn, s.ctx), s);
            match c
            case Fault(e) => Observed(p, Exec(w, p, d, s)) == Failure(e, s.trace + [StepEnded(nid)] + [Errored(nid)])
            case Next(t) => Follows(w, p, d, s, FinishStage(w, nid, fn, t.ctx, t.pending, t.trace),
                                    ip + StageLength(w, fn), s')
  {
    var c := Called(nid, w.call(nid, fn, s.ctx), s);
    s' := s;
    assert Step(w, p, d, s) == c;
    if c.Fault? {
      ExecFault(w, p, d, s, c.error);
    } else {
      ExecNext(w, p, d, s, c.s);
      s' := StageTail(w, p, d, c.s, nid, fn, ip);
    }
  }

  lemma StageExec(w: World, p: Program, d: bool, s: State, nid: string, fn: Fn) returns (s': State)
    requires WellBuilt(w, p) && Bound(p.table, nid, fn) && StageAt(w, p, s.ip, nid, fn) && s.timers == []
    ensures Follows(w, p, d, s, RunStage(w, nid, fn, FlowOf(s)), s.ip + StageLength(w, fn), s')
  {
    var s1 := StageOpen(w, p, d, s, nid, fn);
    s' := StageInput(w, p, d, s1, nid, fn, s.ip);
    if Accepts(w, w.attrs(fn).input, s.ctx.data) {
      s' := StageCall(w, p, d, s', nid, fn, s.ip);
    }
  }

  /** The forked branches of the VM are the branches of the walk. */
  lemma {:induction false} BranchesAgree(w: World, p: Program, branches: seq<(string, Fn)>, ctx: Context)
    requires WellBuilt(w, p)
    requires forall i :: 0 <= i < |branches| ==> Bound(p.table, branches[i].0, branches[i].1)
    ensures AllKnown(p, Ids(branches))
    ensures var rs := BranchResults(w, p, Ids(branches), ctx);
            if AllSome(rs) then RunBranches(w, branches, ctx) == Some(Values(rs))
            else RunBranches(w, branches, ctx).None?
  {
    forall i | 0 <= i < |branches|
      ensures Ids(branches)[i] in p.table
      ensures BranchResult(w, p, Ids(branches)[i], ctx) == RunBranch(w, branches[i].0, branches[i].1, ctx)
    {
      assert Bound(p.table, branches[i].0, branches[i].1);
    }
    var rs := BranchResults(w, p, Ids(branches), ctx);
    BranchesPointwise(w, branches, ctx);
    var run := RunBranches(w, branches, ctx);
    if AllSome(rs) {
      assert run.Some?;
      assert run.value == Values(rs);
    }
  }

  lemma BlockExec(w: World, p: Program, d: bool, s: State, branches: seq<(string, Fn)>, mode: ForkMode)
    returns (s': State)
    requires WellBuilt(w, p) && SimpleBound(p.table, Block(branches, mode))
    requires At(p, s.ip, BlockCode(branches, mode)) && s.timers == []
    ensures Follows(w, p, d, s, RunBlock(w, branches, mode, FlowOf(s)), s.ip + |BlockCode(branches, mode)|, s')
  {
    var code, ids := BlockCode(branches, mode), Ids(branches);
    AtIndex(p, s.ip, code, 0);
    AtIndex(p, s.ip, code, 1);
    if mode.Parallel? {
      AtIndex(p, s.ip, code, 2);
    }
    var s1 := Advance(Logged(s, Branched(ids)));
    ExecNext(w, p, d, s, s1);
    s' := ForkExec(w, p, d, s1, branches, mode);
  }

  lemma ForkExec(w: World, p: Program, d: bool, s: State, branches: seq<(string, Fn)>, mode: ForkMode)
    returns (s': State)
    requires WellBuilt(w, p) && SimpleBound(p.table, Block(branches, mode)) && s.timers == []
    requires s.ip < |p.code| && p.code[s.ip] == Bytecode.Fork(Ids(branches), mode)
    requires mode.Parallel? ==> JoinFollows(p.code, s.ip)
    requires s.trace != [] && Last(s.trace) == Branched(Ids(branches))
    ensures Follows(w, p, d, s, RunBlock(w, branches, mode, Flow(s.ctx, s.pending, Front(s.trace))),
                    s.ip + (if mode.Parallel? then 2 else 1), s')
  {
    BranchesAgree(w, p, branches, s.ctx);
    assert s.trace == Front(s.trace) + [Branched(Ids(branches))];
    var r := Forked(w, p, Ids(branches), mode, mode.Parallel?, s.ctx);
    s' := s;
    if r.Ok? {
      s' := s.(ctx := r.value, ip := s.ip + (if mode.Parallel? then 2 else 1));
      ExecNext(w, p, d, s, s');
    } else {
      ExecFault(w, p, d, s, r.error);
    }
  }

  lemma SimpleExec(w: World, p: Program, d: bool, s: State, simple: Simple) returns (s': State)
    requires WellBuilt(w, p) && SimpleBound(p.table, simple) && At(p, s.ip, SimpleCode(w, simple)) && s.timers == []
    ensures Follows(w, p, d, s, RunSimple(w, simple, FlowOf(s)), s.ip + |SimpleCode(w, simple)|, s')
  {
    match simple
    case Stage(nid, fn) =>
      StageCodeShape(w, p, s.ip, nid, fn);
      s' := StageExec(w, p, d, s, nid, fn);
    case Block(branches, mode) =>
      s' := BlockExec(w, p, d, s, branches, mode);
  }

  lemma {:induction false} BodyExec(w: World, p: Program, d: bool, s: State, body: seq<Simple>) returns (s': State)
    requires WellBuilt(w, p) && BodyBound(p.table, body) && At(p, s.ip, BodyCode(w, body)) && s.timers == []
    ensures Follows(w, p, d, s, RunBody(w, body, FlowOf(s)), s.ip + |BodyCode(w, body)|, s')
    decreases |body|
  {
    hide SimpleCode, RunSimple;
    s' := s;
    if body != [] {
      AtSplit(p, s.ip, SimpleCode(w, body[0]), BodyCode(w, body[1..]));
      s' := SimpleExec(w, p, d, s, body[0]);
      if RunSimple(w, body[0], FlowOf(s)).Ran? {
        s' := BodyExec(w, p, d, s', body[1..]);
      }
    }
  }

  /** The route a name selects starts, in the code, where the route map says. */
  lemma {:induction false} RouteEntry(w: World, p: Program, routes: seq<RouteBody>, base: nat, cont: int, name: string)
    requires At(p, base, RoutesCode(w, routes, cont))
    ensures var m := RouteTargets(w, routes, base);
            match Selected(routes, name)
            case None => name !in m
            case Some(body) => name in m && m[name] >= 0 && At(p, m[name], BodyCode(w, body) + [Jump(cont)])
                               && RouteBody(name, body) in routes
    decreases |routes|
  {
    if routes != [] {
      var head := RouteCode(w, routes[0], cont);
      var mid := base + |head|;
      AtSplit(p, base, head, RoutesCode(w, routes[1..], cont));
      ControlFlow.TargetsUnfold(w, routes, base, mid);
      RouteEntry(w, p, routes[1..], mid, cont, name);
      SelectedHead(routes, name);
    }
  }

  lemma {:induction false} SelectedHead(routes: seq<RouteBody>, name: string)
    requires routes != []
    ensures Selected(routes, name)
         == if Selected(routes[1..], name).Some? then Selected(routes[1..], name)
            else if routes[0].name == name then Some(routes[0].body) else None
  {
    if |routes| > 1 {
      assert Last(routes[1..]) == Last(routes);
      if Last(routes).name != name {
        assert Front(routes)[1..] == Front(routes[1..]);
        SelectedHead(Front(routes), name);
      }
    } else {
      assert Front(routes) == [];
    }
  }

  /** From ROUTE through the selected body to the continuation. */
  lemma RoutesExec(w: World, p: Program, d: bool, s: State, routes: seq<RouteBody>, start: nat, cont: nat)
    returns (s': State)
    requires WellBuilt(w, p) && s.timers == []
    requires start == s.ip + 1 && cont == start + |RoutesCode(w, routes, cont)|
    requires s.ip < |p.code| && p.code[s.ip] == Route(RouteTargets(w, routes, start))
    requires At(p, start, RoutesCode(w, routes, cont))
    requires forall i :: 0 <= i < |routes| ==> BodyBound(p.table, routes[i].body)
    ensures Follows(w, p, d, s, RunRoutes(w, routes, FlowOf(s)), cont, s')
  {
    s' := s;
    if s.pending.None? {
      assert Exec(w, p, d, s) == Failed(s, RouteWithoutSend);
      assert s.trace + [] == s.trace;
      return;
    }
    var name := s.pending.value.route;
    RouteEntry(w, p, routes, start, cont, name);
    var logged := Logged(s, Routed(s.pending.value.step, name));
    var body := Selected(routes, name);
    if body.None? {
      assert Exec(w, p, d, s) == Failed(logged, UnknownRoute(name));
      assert logged.trace + [] == logged.trace;
      return;
    }
    var s1 := logged.(ip := RouteTargets(w, routes, start)[name], pending := None);
    ExecNext(w, p, d, s, s1);
    var i :| 0 <= i < |routes| && routes[i] == RouteBody(name, body.value);
    s' := RouteTaken(w, p, d, s1, body.value, cont);
  }

  /** A selected body, then the jump behind it. */
  lemma RouteTaken(w: World, p: Program, d: bool, s: State, body: seq<Simple>, cont: nat) returns (s': State)
    requires WellBuilt(w, p) && s.timers == [] && BodyBound(p.table, body)
    requires At(p, s.ip, BodyCode(w, body) + [Jump(cont)])
    ensures Follows(w, p, d, s, RunBody(w, body, FlowOf(s)), cont, s')
  {
    hide BodyCode, RunBody;
    AtSplit(p, s.ip, BodyCode(w, body), [Jump(cont)]);
    var s2 := BodyExec(w, p, d, s, body);
    s' := s2;
    if RunBody(w, body, FlowOf(s)).Ran? {
      AtIndex(p, s2.ip, [Jump(cont)], 0);
      s' := s2.(ip := cont);
      ExecNext(w, p, d, s2, s');
    }
  }

  /** The parts of a router's code, where they stand. */
  lemma RouterShape(w: World, p: Program, base: nat, nid: string, fn: Fn, routes: seq<RouteBody>,
                    mid: nat, start: nat, cont: nat)
    requires At(p, base, RouterCode(w, nid, fn, routes, base)) && cont == base + |RouterCode(w, nid, fn, routes, base)|
    requires mid == base + StageLength(w, fn) && start == mid + 1
    ensures StageAt(w, p, base, nid, fn)
    ensures mid < |p.code| && p.code[mid] == Route(RouteTargets(w, routes, start))
    ensures At(p, start, RoutesCode(w, routes, cont)) && cont == start + |RoutesCode(w, routes, cont)|
  {
    ControlFlow.RouterParts(w, base, nid, fn, routes, start, cont);
    ThreeParts(p, base, StageCode(w, nid, fn), [Route(RouteTargets(w, routes, start))],
               RoutesCode(w, routes, cont), mid, start);
    StageCodeShape(w, p, base, nid, fn);
  }

  lemma ThreeParts(p: Program, base: nat, a: seq<Instr>, one: seq<Instr>, b: seq<Instr>, mid: nat, start: nat)
    requires At(p, base, (a + one) + b) && |one| == 1 && mid == base + |a| && start == mid + 1
    ensures At(p, base, a) && mid < |p.code| && p.code[mid] == one[0] && At(p, start, b)
  {
    AtSplit(p, base, a + one, b);
    AtSplit(p, base, a, one);
    AtIndex(p, mid, one, 0);
  }

  lemma RouterExec(w: World, p: Program, d: bool, s: State, nid: string, fn: Fn, routes: seq<RouteBody>, cont: nat)
    returns (s': State)
    requires WellBuilt(w, p) && s.timers == [] && NodeBound(p.table, Router(nid, fn, routes))
    requires At(p, s.ip, RouterCode(w, nid, fn, routes, s.ip)) && cont == s.ip + |RouterCode(w, nid, fn, routes, s.ip)|
    ensures Follows(w, p, d, s, RunNode(w, Router(nid, fn, routes), FlowOf(s)), cont, s')
  {
    var mid := s.ip + StageLength(w, fn);
    var start := mid + 1;
    RouterShape(w, p, s.ip, nid, fn, routes, mid, start, cont);
    s' := StageThenRoutes(w, p, d, s, nid, fn, routes, start, cont);
  }

  lemma StageThenRoutes(w: World, p: Program, d: bool, s: State, nid: string, fn: Fn, routes: seq<RouteBody>,
                        start: nat, cont: nat) returns (s': State)
    requires WellBuilt(w, p) && s.timers == [] && NodeBound(p.table, Router(nid, fn, routes))
    requires StageAt(w, p, s.ip, nid, fn) && start == s.ip + StageLength(w, fn) + 1 <= |p.code|
    requires p.code[start - 1] == Route(RouteTargets(w, routes, start))
    requires At(p, start, RoutesCode(w, routes, cont)) && cont == start + |RoutesCode(w, routes, cont)|
    ensures Follows(w, p, d, s, RunNode(w, Router(nid, fn, routes), FlowOf(s)), cont, s')
  {
    hide RoutesCode, RunStage, RunRoutes, RouteTargets;
    s' := StageExec(w, p, d, s, nid, fn);
    if RunStage(w, nid, fn, FlowOf(s)).Ran? {
      s' := RoutesExec(w, p, d, s', routes, start, cont);
    }
  }

  lemma NodeExec(w: World, p: Program, d: bool, s: State, r: RNode, end: nat) returns (s': State)
    requires WellBuilt(w, p) && s.timers == [] && NodeBound(p.table, r)
    requires At(p, s.ip, NodeCode(w, r, s.ip)) && end == s.ip + |NodeCode(w, r, s.ip)|
    ensures Follows(w, p, d, s, RunNode(w, r, FlowOf(s)), end, s')
  {
    match r
    case Plain(simple) => s' := SimpleExec(w, p, d, s, simple);
    case Router(nid, fn, routes) => s' := RouterExec(w, p, d, s, nid, fn, routes, end);
  }

  lemma {:induction false} CodeExec(w: World, p: Program, d: bool, s: State, rs: seq<RNode>, end: nat)
    returns (s': State)
    requires WellBuilt(w, p) && s.timers == [] && AllBound(p.table, rs)
    requires At(p, s.ip, Code(w, rs, s.ip)) && end == s.ip + |Code(w, rs, s.ip)|
    ensures Follows(w, p, d, s, Run(w, rs, FlowOf(s)), end, s')
    decreases |rs|
  {
    hide NodeCode, RunNode;
    s' := s;
    if rs != [] {
      var head := NodeCode(w, rs[0], s.ip);
      var mid := s.ip + |head|;
      CodeCons(w, rs, s.ip, mid);
      AtSplit(p, s.ip, head, Code(w, rs[1..], mid));
      s' := NodeExec(w, p, d, s, rs[0], mid);
      if RunNode(w, rs[0], FlowOf(s)).Ran? {
        s' := CodeExec(w, p, d, s', rs[1..], end);
      }
    }
  }

  /** From a point where the code of `rs` is all that stands before the end, the run means `rs`. */
  lemma ToTheEnd(w: World, p: Program, d: bool, s: State, rs: seq<RNode>)
    requires WellBuilt(w, p) && s.timers == [] && AllBound(p.table, rs)
    requires At(p, s.ip, Code(w, rs, s.ip) + [EmitPipelineEnd])
    requires s.ip + |Code(w, rs, s.ip)| + 1 == |p.code|
    ensures Observed(p, Exec(w, p, d, s)) == Finished(Run(w, rs, FlowOf(s)))
  {
    var end := s.ip + |Code(w, rs, s.ip)|;
    AtSplit(p, s.ip, Code(w, rs, s.ip), [EmitPipelineEnd]);
    AtIndex(p, end, [EmitPipelineEnd], 0);
    var s1 := CodeExec(w, p, d, s, rs, end);
    if Run(w, rs, FlowOf(s)).Ran? {
      var s2 := Advance(Logged(s1, PipelineEnded));
      ExecNext(w, p, d, s1, s2);
    }
  }

  lemma AssembledIsWellBuilt(w: World, rs: seq<RNode>, t: Table)
    ensures WellBuilt(w, Assemble(w, rs, t))
  {
    ControlFlow.CompiledIsStructured(w, rs, t);
    ControlFlow.StructuredForward(Assemble(w, rs, t).code);
  }

  /** Running assembled code from the start gives the nodes' meaning, for every initial context. */
  lemma AssembledMeaning(w: World, rs: seq<RNode>, t: Table, d: bool, ctx: Context)
    requires AllBound(t, rs)
    ensures Forward(Assemble(w, rs, t).code)
    ensures Observed(Assemble(w, rs, t), Exec(w, Assemble(w, rs, t), d, Fresh(ctx))) == Meaning(w, rs, ctx)
  {
    var p := Assemble(w, rs, t);
    AssembledIsWellBuilt(w, rs, t);
    var s := Fresh(ctx);
    var s1 := Advance(Logged(s, PipelineStarted));
    assert p.code[0] == EmitPipelineStart;
    assert s1.trace == [PipelineStarted];
    ExecNext(w, p, d, s, s1);
    var body := Code(w, rs, 1);
    assert p.code == [EmitPipelineStart] + (body + [EmitPipelineEnd]);
    assert p.code[1..1 + |body| + 1] == body + [EmitPipelineEnd];
    ToTheEnd(w, p, d, s1, rs);
  }

  /**
   * Compiler correctness. A pipeline that compiles runs, on every initial context, to what walking its
   * nodes gives: the same success or error, the same context, the same main-line events.
   */
  lemma CompilerCorrect(w: World, auto: bool, nodes: seq<Node>, d: bool, ctx: Context)
    requires Lower(w, auto, nodes).Ok?
    ensures var (rs, t) := Lower(w, auto, nodes).value;
            var p := Assemble(w, rs, t);
            Forward(p.code) && Observed(p, Exec(w, p, d, Fresh(ctx))) == Meaning(w, rs, ctx)
  {
    var (rs, t) := Lower(w, auto, nodes).value;
    ResolveStable(w, auto, FoldIf(w, auto, nodes).value, map[]);
    AssembledMeaning(w, rs, t, d, ctx);
  }
}
