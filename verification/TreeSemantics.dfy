/** What a pipeline means: a walk over its nodes, with no instructions, ips or symbol table. */
module TreeSemantics {
  import opened Primitives
  import opened Contexts
  import opened Bytecode
  import opened Lowering
  import opened Runs

  /** The state threaded from node to node; a `Send` nobody has routed yet stays pending. */
  datatype Flow = Flow(ctx: Context, pending: Option<Pending>, trace: seq<Event>)

  datatype Ran = Ran(flow: Flow) | Stopped(error: Error, trace: seq<Event>)

  function Accepts(w: World, schema: Option<Schema>, data: Data): bool {
    schema.Some? ==> w.conforms(schema.value, data)
  }

  /** A stage that fails has its span closed before the error is reported. */
  function StageStopped(nid: string, error: Error, trace: seq<Event>): Ran {
    Stopped(error, trace + [StepEnded(nid)] + [Errored(nid)])
  }

  function FinishStage(w: World, nid: string, fn: Fn, ctx: Context, pending: Option<Pending>, trace: seq<Event>): Ran {
    if !Accepts(w, w.attrs(fn).output, ctx.data) then StageStopped(nid, OutputInvalid(nid), trace)
    else Ran(Flow(ctx, pending, trace + [StepEnded(nid)]))
  }

  function RunStage(w: World, nid: string, fn: Fn, f: Flow): Ran {
    var trace := f.trace + [StepStarted(nid)];
    if !Accepts(w, w.attrs(fn).input, f.ctx.data) then StageStopped(nid, InputInvalid(nid), trace)
    else
      match w.call(nid, fn, f.ctx)
      case Raised => StageStopped(nid, StageRaised(nid), trace)
      case Returned(ctx) => FinishStage(w, nid, fn, ctx, f.pending, trace)
      case Sent(route, patch) => FinishStage(w, nid, fn, Updated(f.ctx, patch), Some(Pending(nid, route)), trace)
  }

  /** One parallel branch; a `Send` there is an error. */
  function RunBranch(w: World, nid: string, fn: Fn, ctx: Context): Option<Context> {
    var c := Contexts.Fork(ctx, nid);
    if !Accepts(w, w.attrs(fn).input, c.data) then None
    else
      match w.call(nid, fn, c)
      case Returned(r) => if Accepts(w, w.attrs(fn).output, r.data) then Some(r) else None
      case _ => None
  }

  /** The contexts of all branches in order, if every branch succeeds. */
  function RunBranches(w: World, branches: seq<(string, Fn)>, ctx: Context): (r: Option<seq<Context>>)
    ensures r.Some? ==> |r.value| == |branches|
  {
    if branches == [] then Some([])
    else
      var first := RunBranch(w, branches[0].0, branches[0].1, ctx);
      var rest := RunBranches(w, branches[1..], ctx);
      if first.Some? && rest.Some? then Some([first.value] + rest.value) else None
  }

  /** `RunBranches` branch by branch. */
  lemma {:induction false} BranchesPointwise(w: World, branches: seq<(string, Fn)>, ctx: Context)
    ensures var run := RunBranches(w, branches, ctx);
            && (run.Some? <==>
                  forall i :: 0 <= i < |branches| ==> RunBranch(w, branches[i].0, branches[i].1, ctx).Some?)
            && (run.Some? ==>
                  forall i :: 0 <= i < |branches| ==>
                    RunBranch(w, branches[i].0, branches[i].1, ctx) == Some(run.value[i]))
  {
    if branches != [] {
      BranchesPointwise(w, branches[1..], ctx);
      var rest := RunBranches(w, branches[1..], ctx);
      if rest.None? {
        var i :| 0 <= i < |branches[1..]| && RunBranch(w, branches[1..][i].0, branches[1..][i].1, ctx).None?;
        assert branches[i + 1] == branches[1..][i];
      }
    }
  }

  ghost function RunBlock(w: World, branches: seq<(string, Fn)>, mode: ForkMode, f: Flow): Ran {
    var trace := f.trace + [Branched(Ids(branches))];
    if mode.FireForget? then Ran(Flow(f.ctx, f.pending, trace))
    else
      var results := RunBranches(w, branches, f.ctx);
      if results.None? then Stopped(BranchFailed, trace + [Errored(NO_STEP)])
      else if !ClashFree(results.value) then Stopped(MergeFailed, trace + [Errored(NO_STEP)])
      else Ran(Flow(MergedContext(f.ctx, results.value), f.pending, trace))
  }

  ghost function RunSimple(w: World, s: Simple, f: Flow): Ran {
    match s
    case Stage(nid, fn) => RunStage(w, nid, fn, f)
    case Block(branches, mode) => RunBlock(w, branches, mode, f)
  }

  ghost function RunBody(w: World, body: seq<Simple>, f: Flow): Ran {
    if body == [] then Ran(f)
    else
      var first := RunSimple(w, body[0], f);
      if first.Stopped? then first else RunBody(w, body[1..], first.flow)
  }

  /** The body a route name selects: as in a dict, the last entry of the name. */
  function Selected(routes: seq<RouteBody>, name: string): Option<seq<Simple>> {
    if routes == [] then None
    else if Last(routes).name == name then Some(Last(routes).body)
    else Selected(Front(routes), name)
  }

  /** After the router: exactly the body its `Send` names runs. */
  ghost function RunRoutes(w: World, routes: seq<RouteBody>, f: Flow): Ran {
    if f.pending.None? then Stopped(RouteWithoutSend, f.trace + [Errored(NO_STEP)])
    else
      var trace := f.trace + [Routed(f.pending.value.step, f.pending.value.route)];
      var body := Selected(routes, f.pending.value.route);
      if body.None? then Stopped(UnknownRoute(f.pending.value.route), trace + [Errored(NO_STEP)])
      else RunBody(w, body.value, Flow(f.ctx, None, trace))
  }

  ghost function RunNode(w: World, r: RNode, f: Flow): Ran {
    match r
    case Plain(s) => RunSimple(w, s, f)
    case Router(nid, fn, routes) =>
      var first := RunStage(w, nid, fn, f);
      if first.Stopped? then first else RunRoutes(w, routes, first.flow)
  }

  ghost function Run(w: World, rs: seq<RNode>, f: Flow): Ran {
    if rs == [] then Ran(f)
    else
      var first := RunNode(w, rs[0], f);
      if first.Stopped? then first else Run(w, rs[1..], first.flow)
  }

  /** A list of stages and blocks as top-level nodes. */
  function Lift(body: seq<Simple>): (rs: seq<RNode>)
    ensures |rs| == |body|
    ensures forall i :: 0 <= i < |rs| ==> rs[i] == Plain(body[i])
  {
    if body == [] then [] else [Plain(body[0])] + Lift(body[1..])
  }

  lemma {:induction false} RunLifted(w: World, x: seq<Simple>, rest: seq<RNode>, f: Flow)
    ensures var first := RunBody(w, x, f);
            Run(w, Lift(x) + rest, f) == if first.Stopped? then first else Run(w, rest, first.flow)
  {
    if x == [] {
      assert Lift(x) + rest == rest;
    } else {
      assert (Lift(x) + rest)[1..] == Lift(x[1..]) + rest;
      var first := RunSimple(w, x[0], f);
      if first.Ran? {
        RunLifted(w, x[1..], rest, first.flow);
      }
    }
  }

  /** The outcome of a walk that reaches the end of the pipeline, or stops. */
  function Finished(r: Ran): Outcome {
    match r
    case Ran(f) => Success(f.ctx, f.trace + [PipelineEnded])
    case Stopped(e, trace) => Failure(e, trace)
  }

  /** The reference meaning of a pipeline on an initial context. */
  ghost function Meaning(w: World, rs: seq<RNode>, ctx: Context): Outcome {
    Finished(Run(w, rs, Flow(ctx, None, [PipelineStarted])))
  }
}
