/** Crash safety of pipelines as written, and the one way to lose it. */
module CrashSafety {
  import opened Primitives
  import opened Contexts
  import opened Bytecode
  import Naming
  import opened Folding
  import opened Lowering
  import opened Runs
  import opened TreeSemantics
  import opened Vm
  import Correctness
  import opened Resume
  import opened Replay

  ghost predicate SameEnd(a: Outcome, b: Outcome) {
    match (a, b)
    case (Success(c, _), Success(c', _)) => c.data == c'.data
    case (Failure(e, _), Failure(e', _)) => e == e'
    case _ => false
  }

  /**
   * However often a durable run is cut and resumed, the attempt that is let run to its end finishes
   * as the source pipeline does when walked once from the initial context.
   */
  lemma PipelineCrashResume(w: World, auto: bool, nodes: seq<Node>, ctx: Context, cuts: seq<Cut>)
    requires Lower(w, auto, nodes).Ok?
    requires var (rs, t) := Lower(w, auto, nodes).value;
             OnlyRoutersSend(w, rs) && DataOnly(w, Assemble(w, rs, t))
    ensures var (rs, t) := Lower(w, auto, nodes).value;
            var p := Assemble(w, rs, t);
            && Forward(p.code)
            && var start := Attempt(w, p, ctx, cuts);
               start.Some? ==> SameEnd(Meaning(w, rs, ctx), Observed(p, Exec(w, p, true, start.value)))
  {
    var (rs, t) := Lower(w, auto, nodes).value;
    var p := Assemble(w, rs, t);
    Correctness.CompilerCorrect(w, auto, nodes, true, ctx);
    ResolveStable(w, auto, FoldIf(w, auto, nodes).value, map[]);
    CompiledIsDurable(w, rs, t);
    if Attempt(w, p, ctx, cuts).Some? {
      var n := CrashResume(w, p, ctx, cuts);
    }
  }

  /**
   * The same for a replay from a step, wherever it is cut, before its next CHECKPOINT too: the attempt that
   * is let run to its end finishes as the step's source continuation does from the checkpoint's data.
   */
  lemma ReplayCrashResume(w: World, rs: seq<RNode>, t: Table, step: string, data: Data, cuts: seq<Cut>)
    returns (ip: nat, k: seq<RNode>)
    requires AllBound(t, rs) && OnlyRoutersSend(w, rs) && DataOnly(w, Assemble(w, rs, t)) && step in MainLine(rs)
    ensures FindStep(Assemble(w, rs, t).code, step, 0) == Some(ip) && ip > 0
    ensures Continuation(w, rs, 1, ip - 1) == Some(k) && k != [] && HeadId(k[0]) == Some(step)
    ensures var p := Assemble(w, rs, t);
            && Forward(p.code)
            && var attempt := AttemptFrom(w, p, Resumed(Record(p.version, ip, data), "replay"), cuts);
               && attempt.Some?
               && SameEnd(Finished(Run(w, k, Flow(FromSnapshot(data, "replay"), None, []))),
                          Observed(p, Exec(w, p, true, attempt.value)))
  {
    var p := Assemble(w, rs, t);
    ip, k := ReplayContinues(w, rs, t, step, data, "replay");
    CompiledIsDurable(w, rs, t);
    var record := Record(p.version, ip, data);
    var start := Resumed(record, "replay");
    RecordIsOrigin(p, record, "replay");
    OnlyTheFirstCutLoses(w, p, start, cuts);
    if cuts != [] {
      SlotStays(w, p, start, cuts[0].instructions);
    }
    var n := CrashResumeFrom(w, p, start, cuts);
  }

  // ------------------------------------------------------------ a Send that leaks

  const F := Fn(0)
  const G := Fn(1)
  const H := Fn(2)

  /**
   * Three stages without schemas or declarations; `f` sends although it is no router, the others pass their
   * input on.
   */
  function Leaky(): World {
    World(
      fn => Attrs(true, if fn == F then "f" else if fn == G then "g" else "h", "", None, None, None, None),
      (nid: string, fn: Fn, c: Context) => if fn == F then Sent("r", map[]) else Returned(c),
      (schema, data) => true,
      code => "v")
  }

  /** `[f, g, {"r": h}]`. */
  const LEAKY_NODES := [StageNode(F), StageNode(G), RouteDict([("r", SingleBody(StageNode(H)))])]

  const LEAKY_RESOLVED := [Plain(Stage("f", F)), Router("g", G, [RouteBody("r", [Stage("h", H)])])]

  const LEAKY_TABLE: Table := map["f" := F, "g" := G, "h" := H]

  lemma LeakyCompiles()
    ensures Lower(Leaky(), false, LEAKY_NODES) == Ok((LEAKY_RESOLVED, LEAKY_TABLE))
  {
    var w := Leaky();
    var t1, t2 := map["f" := F], map["f" := F, "g" := G];
    assert Naming.NodeId(w, F, map[]) == "f" && Naming.NodeId(w, G, t1) == "g" && Naming.NodeId(w, H, t2) == "h";
    assert t1["g" := G] == t2 && t2["h" := H] == LEAKY_TABLE;
    var body := [StageNode(H)];
    assert body[1..] == [] && ResolveBody(w, body[1..], LEAKY_TABLE) == Ok(([], LEAKY_TABLE));
    assert ResolveSimple(w, body[0], t2) == Ok((Stage("h", H), LEAKY_TABLE));
    assert [Stage("h", H)] + [] == [Stage("h", H)];
    assert ResolveBody(w, body, t2) == Ok(([Stage("h", H)], LEAKY_TABLE));
    var routes := [("r", SingleBody(StageNode(H)))];
    assert routes[1..] == [] && ResolveRoutes(w, false, routes[1..], LEAKY_TABLE) == Ok(([], LEAKY_TABLE));
    assert [RouteBody("r", [Stage("h", H)])] + [] == [RouteBody("r", [Stage("h", H)])];
    assert ResolveRoutes(w, false, routes, t2) == Ok(([RouteBody("r", [Stage("h", H)])], LEAKY_TABLE));
    var tail := LEAKY_NODES[1..];
    assert tail == [StageNode(G), RouteDict(routes)] && tail[2..] == [];
    assert ResolveHead(w, false, tail, t1) == Ok((LEAKY_RESOLVED[1], LEAKY_TABLE));
    assert Resolve(w, false, tail[2..], LEAKY_TABLE) == Ok(([], LEAKY_TABLE));
    assert [LEAKY_RESOLVED[1]] + [] == [LEAKY_RESOLVED[1]];
    assert Resolve(w, false, tail, t1) == Ok(([LEAKY_RESOLVED[1]], LEAKY_TABLE));
    assert ResolveHead(w, false, LEAKY_NODES, map[]) == Ok((LEAKY_RESOLVED[0], t1));
    assert [LEAKY_RESOLVED[0]] + [LEAKY_RESOLVED[1]] == LEAKY_RESOLVED;
    assert Resolve(w, false, LEAKY_NODES[Taken(LEAKY_NODES)..], t1) == Ok(([LEAKY_RESOLVED[1]], LEAKY_TABLE));
    assert Resolve(w, false, LEAKY_NODES, map[]) == Ok((LEAKY_RESOLVED, LEAKY_TABLE));
  }

  /** Uninterrupted, the route that `f` sent is taken behind `g`, and the run succeeds. */
  lemma LeakySucceeds(ctx: Context)
    ensures Meaning(Leaky(), LEAKY_RESOLVED, ctx).Success?
  {
    var w := Leaky();
    var f0 := Flow(ctx, None, [PipelineStarted]);
    var first := RunNode(w, LEAKY_RESOLVED[0], f0);
    assert first.Ran? && first.flow.pending == Some(Pending("f", "r"));
    var routes := LEAKY_RESOLVED[1].routes;
    assert Selected(routes, "r") == Some([Stage("h", H)]);
    var g := RunStage(w, "g", G, first.flow);
    assert g.Ran? && g.flow.pending == first.flow.pending;
    var body := [Stage("h", H)];
    var at := Flow(g.flow.ctx, None, g.flow.trace + [Routed("f", "r")]);
    assert body[1..] == [] && RunSimple(w, body[0], at).Ran?;
    assert RunBody(w, body, at) == RunBody(w, body[1..], RunSimple(w, body[0], at).flow);
    assert RunRoutes(w, routes, g.flow) == RunBody(w, body, at);
    assert LEAKY_RESOLVED[1..] == [LEAKY_RESOLVED[1]] && LEAKY_RESOLVED[1..][1..] == [];
    assert Run(w, LEAKY_RESOLVED[1..], first.flow).Ran?;
  }

  /** Walked from `g` on, with nothing pending, the ROUTE finds no Send. */
  lemma LeakyTailFails(ctx: Context)
    ensures var r := Finished(Run(Leaky(), LEAKY_RESOLVED[1..], Flow(ctx, None, [])));
            r.Failure? && r.error == RouteWithoutSend
  {
    var w := Leaky();
    var g := RunStage(w, "g", G, Flow(ctx, None, []));
    assert g.Ran? && g.flow.pending.None?;
    assert RunNode(w, LEAKY_RESOLVED[1..][0], Flow(ctx, None, [])) == RunRoutes(w, LEAKY_RESOLVED[1].routes, g.flow);
  }

  /** The first instructions of the program, up to the CHECKPOINT of `g`. */
  ghost predicate LeakyStart(p: Program) {
    && Forward(p.code) && 5 < |p.code| && p.table == LEAKY_TABLE && p.version == "v"
    && p.code[0] == EmitPipelineStart && p.code[1] == Checkpoint("f") && p.code[2] == EmitStepStart("f")
    && p.code[3] == Call("f") && p.code[4] == EmitStepEnd("f") && p.code[5] == Checkpoint("g")
  }

  lemma LeakyLayout()
    ensures LeakyStart(Assemble(Leaky(), LEAKY_RESOLVED, LEAKY_TABLE))
  {
    var w := Leaky();
    var p := Assemble(w, LEAKY_RESOLVED, LEAKY_TABLE);
    Correctness.AssembledIsWellBuilt(w, LEAKY_RESOLVED, LEAKY_TABLE);
    var f := StageCode(w, "f", F);
    var tail := Code(w, LEAKY_RESOLVED[1..], 5);
    assert |f| == 4;
    CodeCons(w, LEAKY_RESOLVED, 1, 5);
    var g := StageCode(w, "g", G);
    assert tail[0] == g[0];
    assert p.code == ([EmitPipelineStart] + (f + tail)) + [EmitPipelineEnd];
    assert p.code[1] == f[0] && p.code[2] == f[1] && p.code[3] == f[2] && p.code[4] == f[3] && p.code[5] == tail[0];
  }

  lemma LeakyCut(p: Program, ctx: Context, name: string)
    requires LeakyStart(p)
    ensures Attempt(Leaky(), p, ctx, [Cut(6, name)]) == Some(Resumed(Record("v", 5, ctx.data), name))
  {
    var w := Leaky();
    var s0 := Fresh(ctx);
    var s1 := s0.(ip := 1, trace := [PipelineStarted]);
    var s2 := s1.(ip := 2, slot := Some(Record("v", 1, ctx.data)));
    var s3 := s2.(ip := 3, trace := s2.trace + [StepStarted("f")], timers := ["f"]);
    var s4 := s3.(ip := 4, ctx := Updated(ctx, map[]), pending := Some(Pending("f", "r")));
    var s5 := s4.(ip := 5, trace := s4.trace + [StepEnded("f")], timers := []);
    var s6 := s5.(ip := 6, slot := Some(Record("v", 5, ctx.data)));
    assert s0.trace + [PipelineStarted] == [PipelineStarted];
    assert Step(w, p, true, s0) == Next(s1);
    assert Step(w, p, true, s1) == Next(s2);
    assert [] + ["f"] == ["f"];
    assert Step(w, p, true, s2) == Next(s3);
    assert Step(w, p, true, s3) == Next(s4);
    assert Step(w, p, true, s4) == Next(s5);
    assert ctx.data + map[] == ctx.data;
    assert Step(w, p, true, s5) == Next(s6);
    SixSteps(w, p, s0, s1, s2, s3, s4, s5, s6);
    var cuts := [Cut(6, name)];
    assert Front(cuts) == [] && Last(cuts) == Cut(6, name);
    assert Attempt(w, p, ctx, Front(cuts)) == Some(s0);
  }

  lemma SixSteps(w: World, p: Program, s0: State, s1: State, s2: State, s3: State, s4: State, s5: State, s6: State)
    requires Forward(p.code) && |p.code| > 5
    requires s0.ip < 6 && Step(w, p, true, s0) == Next(s1) && s1.ip < 6 && Step(w, p, true, s1) == Next(s2)
    requires s2.ip < 6 && Step(w, p, true, s2) == Next(s3) && s3.ip < 6 && Step(w, p, true, s3) == Next(s4)
    requires s4.ip < 6 && Step(w, p, true, s4) == Next(s5) && s5.ip < 6 && Step(w, p, true, s5) == Next(s6)
    ensures After(w, p, s0, 6) == s6
  {
    assert After(w, p, s5, 1) == After(w, p, s6, 0);
    assert After(w, p, s4, 2) == After(w, p, s5, 1);
    assert After(w, p, s3, 3) == After(w, p, s4, 2);
    assert After(w, p, s2, 4) == After(w, p, s3, 3);
    assert After(w, p, s1, 5) == After(w, p, s2, 4);
  }

  /**
   * When a stage that is no router sends, crash safety fails: `[f, g, {"r": h}]` succeeds when it is let
   * run, and fails for want of a Send when it is cut behind the CHECKPOINT of `g` and resumed.
   */
  lemma LeakBreaksResume(ctx: Context, name: string)
    ensures Lower(Leaky(), false, LEAKY_NODES) == Ok((LEAKY_RESOLVED, LEAKY_TABLE))
    ensures var p := Assemble(Leaky(), LEAKY_RESOLVED, LEAKY_TABLE);
            && Forward(p.code)
            && Observed(p, Exec(Leaky(), p, true, Fresh(ctx))).Success?
            && var start := Attempt(Leaky(), p, ctx, [Cut(6, name)]);
               && start.Some?
               && var end := Observed(p, Exec(Leaky(), p, true, start.value));
                  end.Failure? && end.error == RouteWithoutSend
  {
    LeakyCompiles();
    LeakySucceeds(ctx);
    LeakyLayout();
    LeakyCut(Assemble(Leaky(), LEAKY_RESOLVED, LEAKY_TABLE), ctx, name);
    Correctness.CompilerCorrect(Leaky(), false, LEAKY_NODES, true, ctx);
    ResolveStable(Leaky(), false, LEAKY_NODES, map[]);
    var k := ResumeContinues(Leaky(), LEAKY_RESOLVED, LEAKY_TABLE, Record("v", 5, ctx.data), name);
    assert k == LEAKY_RESOLVED[1..] by {
      var head := NodeCode(Leaky(), LEAKY_RESOLVED[0], 1);
      assert |head| == 4;
    }
    LeakyTailFails(FromSnapshot(ctx.data, name));
  }
}
