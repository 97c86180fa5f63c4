/** Where a replay goes on: every CHECKPOINT, and the step_start behind it, stands for a source position. */
module Replay {
  import opened Primitives
  import opened Contexts
  import opened Bytecode
  import opened Lowering
  import opened TreeSemantics
  import opened Vm
  import ControlFlow
  import opened Correctness

  // -------------------------------------------------------- source continuations

  /** What is left of a route body standing at `base` when control is at `ip`, the start of one of its items. */
  ghost function BodyFrom(w: World, body: seq<Simple>, base: nat, ip: nat): Option<seq<Simple>>
    decreases |body|
  {
    if body == [] then None
    else if ip == base then Some(body)
    else
      var mid := base + |SimpleCode(w, body[0])|;
      if ip < mid then None else BodyFrom(w, body[1..], mid, ip)
  }

  ghost function RoutesFrom(w: World, routes: seq<RouteBody>, base: nat, ip: nat): Option<seq<Simple>>
    decreases |routes|
  {
    if routes == [] then None
    else
      var mid := base + |RouteCode(w, routes[0], -1)|;
      if ip < mid then BodyFrom(w, routes[0].body, base, ip) else RoutesFrom(w, routes[1..], mid, ip)
  }

  /** The nodes still to run: the rest of the route body control is in, then the remaining top-level nodes. */
  ghost function Continuation(w: World, rs: seq<RNode>, base: nat, ip: nat): Option<seq<RNode>>
    decreases |rs|
  {
    if rs == [] then None
    else if ip == base then Some(rs)
    else
      var mid := base + |NodeCode(w, rs[0], base)|;
      if ip >= mid then Continuation(w, rs[1..], mid, ip)
      else if rs[0].Plain? then None
      else
        var start := base + StageLength(w, rs[0].fn) + 1;
        if ip < start then None
        else
          match RoutesFrom(w, rs[0].routes, start, ip)
          case None => None
          case Some(body) => Some(Lift(body) + rs[1..])
  }

  function HeadId(r: RNode): Option<string> {
    match r
    case Plain(Stage(nid, _)) => Some(nid)
    case Plain(Block(_, _)) => None
    case Router(nid, _, _) => Some(nid)
  }

  // --------------------------------------------------- running from a position

  lemma {:induction false} BodyFromAt(w: World, p: Program, body: seq<Simple>, base: nat, cont: int, ip: nat)
    requires At(p, base, BodyCode(w, body) + [Jump(cont)]) && BodyBound(p.table, body)
    requires BodyFrom(w, body, base, ip).Some?
    ensures var k := BodyFrom(w, body, base, ip).value;
            At(p, ip, BodyCode(w, k) + [Jump(cont)]) && BodyBound(p.table, k)
    decreases |body|
  {
    if ip != base {
      var head := SimpleCode(w, body[0]);
      var mid := base + |head|;
      var tail := BodyCode(w, body[1..]) + [Jump(cont)];
      AppendAssoc(head, BodyCode(w, body[1..]), [Jump(cont)]);
      AtSplit(p, base, head, tail);
      BodyFromAt(w, p, body[1..], mid, cont, ip);
    }
  }

  lemma {:induction false} RoutesFromAt(w: World, p: Program, routes: seq<RouteBody>, base: nat, cont: int, ip: nat)
    requires At(p, base, RoutesCode(w, routes, cont))
    requires forall i :: 0 <= i < |routes| ==> BodyBound(p.table, routes[i].body)
    requires RoutesFrom(w, routes, base, ip).Some?
    ensures var k := RoutesFrom(w, routes, base, ip).value;
            At(p, ip, BodyCode(w, k) + [Jump(cont)]) && BodyBound(p.table, k)
    decreases |routes|
  {
    var head := RouteCode(w, routes[0], cont);
    var mid := base + |head|;
    AtSplit(p, base, head, RoutesCode(w, routes[1..], cont));
    if ip < mid {
      BodyFromAt(w, p, routes[0].body, base, cont, ip);
    } else {
      RoutesFromAt(w, p, routes[1..], mid, cont, ip);
    }
  }

  /** Inside a router's routes: the rest of the body runs, then control reaches the next top-level node. */
  lemma InsideRouter(w: World, p: Program, d: bool, s: State, r: RNode, base: nat, start: nat, cont: nat)
    returns (s': State)
    requires WellBuilt(w, p) && s.timers == [] && r.Router? && NodeBound(p.table, r)
    requires At(p, base, NodeCode(w, r, base)) && cont == base + |NodeCode(w, r, base)|
    requires start == base + StageLength(w, r.fn) + 1
    requires RoutesFrom(w, r.routes, start, s.ip).Some?
    ensures Follows(w, p, d, s, RunBody(w, RoutesFrom(w, r.routes, start, s.ip).value, FlowOf(s)), cont, s')
  {
    RouterShape(w, p, base, r.nid, r.fn, r.routes, start - 1, start, cont);
    RoutesFromAt(w, p, r.routes, start, cont, s.ip);
    s' := RouteTaken(w, p, d, s, RoutesFrom(w, r.routes, start, s.ip).value, cont);
  }

  /** What stands behind the first node's code up to the end of the program. */
  lemma CodeTail(w: World, p: Program, rs: seq<RNode>, base: nat, mid: nat)
    requires rs != [] && mid == base + |NodeCode(w, rs[0], base)|
    requires At(p, base, Code(w, rs, base) + [EmitPipelineEnd]) && base + |Code(w, rs, base)| + 1 == |p.code|
    ensures At(p, base, NodeCode(w, rs[0], base))
    ensures At(p, mid, Code(w, rs[1..], mid) + [EmitPipelineEnd]) && mid + |Code(w, rs[1..], mid)| + 1 == |p.code|
  {
    var head, tail := NodeCode(w, rs[0], base), Code(w, rs[1..], mid);
    CodeCons(w, rs, base, mid);
    AppendAssoc(head, tail, [EmitPipelineEnd]);
    AtSplit(p, base, head, tail + [EmitPipelineEnd]);
  }

  /** From inside a route body to the end of the program. */
  lemma BodyThenNodes(w: World, p: Program, d: bool, s: State, r: RNode, rest: seq<RNode>, base: nat,
                      start: nat, mid: nat)
    requires WellBuilt(w, p) && s.timers == [] && r.Router? && NodeBound(p.table, r) && AllBound(p.table, rest)
    requires At(p, base, NodeCode(w, r, base)) && mid == base + |NodeCode(w, r, base)|
    requires At(p, mid, Code(w, rest, mid) + [EmitPipelineEnd]) && mid + |Code(w, rest, mid)| + 1 == |p.code|
    requires start == base + StageLength(w, r.fn) + 1 && RoutesFrom(w, r.routes, start, s.ip).Some?
    ensures var body := RoutesFrom(w, r.routes, start, s.ip).value;
            Observed(p, Exec(w, p, d, s)) == Finished(Run(w, Lift(body) + rest, FlowOf(s)))
  {
    var body := RoutesFrom(w, r.routes, start, s.ip).value;
    var s' := InsideRouter(w, p, d, s, r, base, start, mid);
    RunLifted(w, body, rest, FlowOf(s));
    if RunBody(w, body, FlowOf(s)).Ran? {
      ToTheEnd(w, p, d, s', rest);
    }
  }

  lemma TailContinues(w: World, rs: seq<RNode>, base: nat, ip: nat, mid: nat)
    requires rs != [] && mid == base + |NodeCode(w, rs[0], base)| && mid <= ip
    ensures Continuation(w, rs, base, ip) == Continuation(w, rs[1..], mid, ip)
  {
  }

  lemma InsideContinues(w: World, rs: seq<RNode>, base: nat, ip: nat, mid: nat, start: nat)
    requires rs != [] && mid == base + |NodeCode(w, rs[0], base)| && ip != base && ip < mid
    requires rs[0].Router? ==> start == base + StageLength(w, rs[0].fn) + 1
    ensures Continuation(w, rs, base, ip).Some? ==>
              && rs[0].Router? && RoutesFrom(w, rs[0].routes, start, ip).Some?
              && Continuation(w, rs, base, ip).value == Lift(RoutesFrom(w, rs[0].routes, start, ip).value) + rs[1..]
  {
  }

  /** From a source position the program runs to what its continuation means. */
  lemma {:induction false} ContinuationExec(w: World, p: Program, d: bool, s: State, rs: seq<RNode>, base: nat,
                                            k: seq<RNode>)
    requires WellBuilt(w, p) && s.timers == [] && AllBound(p.table, rs)
    requires At(p, base, Code(w, rs, base) + [EmitPipelineEnd]) && base + |Code(w, rs, base)| + 1 == |p.code|
    requires Continuation(w, rs, base, s.ip) == Some(k)
    ensures Observed(p, Exec(w, p, d, s)) == Finished(Run(w, k, FlowOf(s)))
    decreases |rs|
  {
    if s.ip == base {
      ToTheEnd(w, p, d, s, rs);
    } else {
      var mid := base + |NodeCode(w, rs[0], base)|;
      CodeTail(w, p, rs, base, mid);
      if s.ip >= mid {
        TailContinues(w, rs, base, s.ip, mid);
        ContinuationExec(w, p, d, s, rs[1..], mid, k);
      } else {
        var start := if rs[0].Router? then base + StageLength(w, rs[0].fn) + 1 else 0;
        InsideContinues(w, rs, base, s.ip, mid, start);
        BodyThenNodes(w, p, d, s, rs[0], rs[1..], base, start, mid);
      }
    }
  }

  // ------------------------------------------- every CHECKPOINT is such a position

  lemma RouterCodeParts(w: World, nid: string, fn: Fn, routes: seq<RouteBody>, base: nat)
    returns (m: map<string, int>, cont: int)
    ensures RouterCode(w, nid, fn, routes, base) == StageCode(w, nid, fn) + [Route(m)] + RoutesCode(w, routes, cont)
  {
    var start := base + |StageCode(w, nid, fn)| + 1;
    m, cont := RouteTargets(w, routes, start), start + |RoutesCode(w, routes, -1)|;
  }

  lemma SimpleCheckpoint(w: World, s: Simple, i: nat)
    requires i < |SimpleCode(w, s)| && SimpleCode(w, s)[i].Checkpoint?
    ensures i == 0 && s.Stage? && s.nid == SimpleCode(w, s)[i].nid
  {
  }

  ghost predicate StageHead(k: Option<seq<Simple>>, nid: string) {
    k.Some? && k.value != [] && k.value[0].Stage? && k.value[0].nid == nid
  }

  lemma BehindHead(code: seq<Instr>, head: seq<Instr>, tail: seq<Instr>, i: nat, j: nat)
    requires code == head + tail && i == |head| + j < |code|
    ensures j < |tail| && tail[j] == code[i]
  {
  }

  lemma {:induction false} BodyCheckpoint(w: World, body: seq<Simple>, base: nat, i: nat, ip: nat, nid: string)
    requires i < |BodyCode(w, body)| && BodyCode(w, body)[i] == Checkpoint(nid) && ip == base + i
    ensures StageHead(BodyFrom(w, body, base, ip), nid)
    decreases |body|
  {
    var head, tail := SimpleCode(w, body[0]), BodyCode(w, body[1..]);
    if i < |head| {
      SimpleCheckpoint(w, body[0], i);
    } else {
      var j, mid := i - |head|, base + |head|;
      BehindHead(BodyCode(w, body), head, tail, i, j);
      BodyCheckpoint(w, body[1..], mid, j, ip, nid);
    }
  }

  lemma {:induction false} RoutesCheckpoint(w: World, routes: seq<RouteBody>, cont: int, base: nat, i: nat,
                                            ip: nat, nid: string)
    requires i < |RoutesCode(w, routes, cont)| && RoutesCode(w, routes, cont)[i] == Checkpoint(nid) && ip == base + i
    ensures StageHead(RoutesFrom(w, routes, base, ip), nid)
    decreases |routes|
  {
    var head, tail := RouteCode(w, routes[0], cont), RoutesCode(w, routes[1..], cont);
    if i < |head| {
      BodyCheckpoint(w, routes[0].body, base, i, ip, nid);
    } else {
      var j, mid := i - |head|, base + |head|;
      BehindHead(RoutesCode(w, routes, cont), head, tail, i, j);
      RoutesCheckpoint(w, routes[1..], cont, mid, j, ip, nid);
    }
  }

  /** Inside one node's code a CHECKPOINT is its own, or one in a route body. */
  lemma NodeCheckpoint(w: World, r: RNode, base: nat, i: nat, ip: nat, start: nat, nid: string)
    requires i < |NodeCode(w, r, base)| && NodeCode(w, r, base)[i] == Checkpoint(nid) && ip == base + i
    requires r.Router? ==> start == base + StageLength(w, r.fn) + 1
    ensures i == 0 ==> HeadId(r) == Some(nid)
    ensures i > 0 ==> r.Router? && ip >= start && StageHead(RoutesFrom(w, r.routes, start, ip), nid)
  {
    match r
    case Plain(s) => SimpleCheckpoint(w, s, i);
    case Router(id, fn, routes) =>
      var m, cont := RouterCodeParts(w, id, fn, routes, base);
      var before, after := StageCode(w, id, fn) + [Route(m)], RoutesCode(w, routes, cont);
      if i >= |before| {
        var j := i - |before|;
        BehindHead(RouterCode(w, id, fn, routes, base), before, after, i, j);
        RoutesCheckpoint(w, routes, cont, start, j, ip, nid);
      } else {
        assert (before + after)[i] == before[i];
      }
  }

  ghost predicate HeadedBy(k: Option<seq<RNode>>, nid: string) {
    k.Some? && k.value != [] && HeadId(k.value[0]) == Some(nid)
  }

  /** An instruction behind the first node's code, as an instruction of the remaining nodes' code. */
  lemma InTail(w: World, rs: seq<RNode>, base: nat, i: nat, mid: nat) returns (j: nat)
    requires rs != [] && mid == base + |NodeCode(w, rs[0], base)| <= base + i && i < |Code(w, rs, base)|
    ensures base + i == mid + j && j < |Code(w, rs[1..], mid)|
    ensures Code(w, rs[1..], mid)[j] == Code(w, rs, base)[i]
  {
    var head, tail := NodeCode(w, rs[0], base), Code(w, rs[1..], mid);
    CodeCons(w, rs, base, mid);
    j := i - |head|;
    BehindHead(Code(w, rs, base), head, tail, i, j);
  }

  lemma HeadCheckpoint(w: World, rs: seq<RNode>, base: nat, i: nat, ip: nat, mid: nat, nid: string)
    requires rs != [] && mid == base + |NodeCode(w, rs[0], base)| && ip == base + i < mid && i < |Code(w, rs, base)|
    requires Code(w, rs, base)[i] == Checkpoint(nid)
    ensures HeadedBy(Continuation(w, rs, base, ip), nid)
  {
    var start := if rs[0].Router? then base + StageLength(w, rs[0].fn) + 1 else 0;
    NodeCheckpoint(w, rs[0], base, i, ip, start, nid);
    if i > 0 {
      var body := RoutesFrom(w, rs[0].routes, start, ip).value;
      assert (Lift(body) + rs[1..])[0] == Plain(body[0]);
    }
  }

  lemma {:induction false} CheckpointContinues(w: World, rs: seq<RNode>, base: nat, i: nat, ip: nat, nid: string)
    requires i < |Code(w, rs, base)| && Code(w, rs, base)[i] == Checkpoint(nid) && ip == base + i
    ensures HeadedBy(Continuation(w, rs, base, ip), nid)
    decreases |rs|
  {
    var mid := base + |NodeCode(w, rs[0], base)|;
    if ip < mid {
      HeadCheckpoint(w, rs, base, i, ip, mid, nid);
    } else {
      var j := InTail(w, rs, base, i, mid);
      TailContinues(w, rs, base, ip, mid);
      CheckpointContinues(w, rs[1..], mid, j, ip, nid);
    }
  }

  // ------------------------------------------------------------- the step search

  /** `_find_step_ip`: the first step_start of that name. */
  function FindStep(code: seq<Instr>, name: string, from: nat): (ip: Option<nat>)
    requires from <= |code|
    ensures ip.Some? ==> from <= ip.value < |code| && code[ip.value] == EmitStepStart(name)
    ensures forall i :: from <= i < (if ip.Some? then ip.value else |code|) ==> code[i] != EmitStepStart(name)
    decreases |code| - from
  {
    if from == |code| then None
    else if code[from] == EmitStepStart(name) then Some(from)
    else FindStep(code, name, from + 1)
  }

  function Steps(code: seq<Instr>): set<string> {
    set i | 0 <= i < |code| && code[i].EmitStepStart? :: code[i].nid
  }

  lemma StepsAppend(a: seq<Instr>, b: seq<Instr>)
    ensures Steps(a + b) == Steps(a) + Steps(b)
  {
    forall x
      ensures x in Steps(a + b) <==> x in Steps(a) + Steps(b)
    {
      if x in Steps(a) {
        var i :| 0 <= i < |a| && a[i].EmitStepStart? && a[i].nid == x;
        assert (a + b)[i] == a[i];
      }
      if x in Steps(b) {
        var i :| 0 <= i < |b| && b[i].EmitStepStart? && b[i].nid == x;
        assert (a + b)[|a| + i] == b[i];
      }
    }
  }

  function SimpleSteps(s: Simple): set<string> {
    if s.Stage? then {s.nid} else {}
  }

  function BodySteps(body: seq<Simple>): set<string> {
    if body == [] then {} else SimpleSteps(body[0]) + BodySteps(body[1..])
  }

  function RoutesSteps(routes: seq<RouteBody>): set<string> {
    if routes == [] then {} else BodySteps(routes[0].body) + RoutesSteps(routes[1..])
  }

  /** The stages that run as steps of their own: all but the branches of Parallel blocks, implicit ones included. */
  function MainLine(rs: seq<RNode>): set<string> {
    if rs == [] then {}
    else
      (match rs[0]
       case Plain(s) => SimpleSteps(s)
       case Router(nid, _, routes) => {nid} + RoutesSteps(routes))
      + MainLine(rs[1..])
  }

  lemma StageSteps(w: World, nid: string, fn: Fn)
    ensures Steps(StageCode(w, nid, fn)) == {nid}
  {
    assert StageCode(w, nid, fn)[1] == EmitStepStart(nid);
  }

  lemma SimpleStepsCode(w: World, s: Simple)
    ensures Steps(SimpleCode(w, s)) == SimpleSteps(s)
  {
    if s.Stage? {
      StageSteps(w, s.nid, s.fn);
    }
  }

  lemma {:induction false} BodyStepsCode(w: World, body: seq<Simple>)
    ensures Steps(BodyCode(w, body)) == BodySteps(body)
  {
    if body != [] {
      SimpleStepsCode(w, body[0]);
      BodyStepsCode(w, body[1..]);
      StepsAppend(SimpleCode(w, body[0]), BodyCode(w, body[1..]));
    }
  }

  lemma {:induction false} RoutesStepsCode(w: World, routes: seq<RouteBody>, cont: int)
    ensures Steps(RoutesCode(w, routes, cont)) == RoutesSteps(routes)
  {
    if routes != [] {
      BodyStepsCode(w, routes[0].body);
      StepsAppend(BodyCode(w, routes[0].body), [Jump(cont)]);
      RoutesStepsCode(w, routes[1..], cont);
      StepsAppend(RouteCode(w, routes[0], cont), RoutesCode(w, routes[1..], cont));
    }
  }

  lemma StepsBetween(a: seq<Instr>, route: Instr, b: seq<Instr>)
    requires route.Route?
    ensures Steps(a + [route] + b) == Steps(a) + Steps(b)
  {
    StepsAppend(a, [route]);
    StepsAppend(a + [route], b);
    assert Steps([route]) == {};
  }

  lemma RouterStepsCode(w: World, nid: string, fn: Fn, routes: seq<RouteBody>, base: nat)
    ensures Steps(RouterCode(w, nid, fn, routes, base)) == {nid} + RoutesSteps(routes)
  {
    var m, cont := RouterCodeParts(w, nid, fn, routes, base);
    StageSteps(w, nid, fn);
    RoutesStepsCode(w, routes, cont);
    StepsBetween(StageCode(w, nid, fn), Route(m), RoutesCode(w, routes, cont));
  }

  lemma NodeStepsCode(w: World, r: RNode, base: nat)
    ensures Steps(NodeCode(w, r, base)) == MainLine([r])
  {
    assert [r][1..] == [];
    match r
    case Plain(s) => SimpleStepsCode(w, s);
    case Router(nid, fn, routes) => RouterStepsCode(w, nid, fn, routes, base);
  }

  lemma MainLineCons(rs: seq<RNode>)
    requires rs != []
    ensures MainLine(rs) == MainLine([rs[0]]) + MainLine(rs[1..])
  {
    assert [rs[0]][1..] == [];
  }

  lemma {:induction false} StepsCode(w: World, rs: seq<RNode>, base: nat)
    ensures Steps(Code(w, rs, base)) == MainLine(rs)
    decreases |rs|
  {
    if rs != [] {
      var head := NodeCode(w, rs[0], base);
      var mid := base + |head|;
      CodeCons(w, rs, base, mid);
      NodeStepsCode(w, rs[0], base);
      StepsCode(w, rs[1..], mid);
      StepsAppend(head, Code(w, rs[1..], mid));
      MainLineCons(rs);
    }
  }

  // ---------------------------------------------------------------- main results

  lemma AssembledParts(w: World, rs: seq<RNode>, t: Table)
    ensures var p := Assemble(w, rs, t);
            && WellBuilt(w, p) && ControlFlow.Structured(p.code)
            && At(p, 1, Code(w, rs, 1) + [EmitPipelineEnd]) && 1 + |Code(w, rs, 1)| + 1 == |p.code|
  {
    AssembledIsWellBuilt(w, rs, t);
    ControlFlow.CompiledIsStructured(w, rs, t);
    BehindStart(Assemble(w, rs, t), Code(w, rs, 1));
  }

  lemma BehindStart(p: Program, body: seq<Instr>)
    requires p.code == [EmitPipelineStart] + body + [EmitPipelineEnd]
    ensures At(p, 1, body + [EmitPipelineEnd]) && 1 + |body| + 1 == |p.code|
  {
    assert p.code[1..1 + |body + [EmitPipelineEnd]|] == body + [EmitPipelineEnd];
  }

  /** A CHECKPOINT stands for a source position: that of the stage it names, and of all that follows it. */
  lemma CheckpointPosition(w: World, rs: seq<RNode>, t: Table, ip: nat) returns (k: seq<RNode>)
    requires ip < |Assemble(w, rs, t).code| && Assemble(w, rs, t).code[ip].Checkpoint?
    ensures Continuation(w, rs, 1, ip) == Some(k)
    ensures k != [] && HeadId(k[0]) == Some(Assemble(w, rs, t).code[ip].nid)
  {
    var body := Code(w, rs, 1);
    assert body[ip - 1] == Assemble(w, rs, t).code[ip];
    CheckpointContinues(w, rs, 1, ip - 1, ip, body[ip - 1].nid);
    k := Continuation(w, rs, 1, ip).value;
  }

  /**
   * Resuming at any CHECKPOINT runs its stage next, and then exactly the source continuation: the
   * rest of its route body, if it is in one, and the remaining top-level nodes.
   */
  lemma ResumeContinues(w: World, rs: seq<RNode>, t: Table, record: Record, name: string) returns (k: seq<RNode>)
    requires AllBound(t, rs)
    requires record.ip < |Assemble(w, rs, t).code| && Assemble(w, rs, t).code[record.ip].Checkpoint?
    ensures Continuation(w, rs, 1, record.ip) == Some(k)
    ensures k != [] && HeadId(k[0]) == Some(Assemble(w, rs, t).code[record.ip].nid)
    ensures var p := Assemble(w, rs, t);
            Forward(p.code)
            && Observed(p, Exec(w, p, true, Resumed(record, name)))
               == Finished(Run(w, k, Flow(FromSnapshot(record.data, name), None, [])))
  {
    k := CheckpointPosition(w, rs, t, record.ip);
    AssembledParts(w, rs, t);
    ContinuationExec(w, Assemble(w, rs, t), true, Resumed(record, name), rs, 1, k);
  }

  ghost predicate SameButSlot(a: StepResult, b: StepResult) {
    match (a, b)
    case (Next(s), Next(t)) => t == s.(slot := t.slot)
    case (Fault(e), Fault(e')) => e == e'
    case _ => false
  }

  lemma SlotStep(w: World, p: Program, d: bool, d': bool, s: State, s': State)
    requires Forward(p.code) && s' == s.(slot := s'.slot) && s.ip < |p.code|
    ensures SameButSlot(Step(w, p, d, s), Step(w, p, d', s'))
    ensures AtFault(p, s') == AtFault(p, s).(slot := s'.slot)
  {
    match p.code[s.ip]
    case Checkpoint(_) =>
    case Call(_) =>
    case Route(_) =>
    case _ =>
  }

  /** Whether and where checkpoints are stored has no influence on what a run shows. */
  lemma {:induction false} SlotUnseen(w: World, p: Program, d: bool, d': bool, s: State, s': State)
    requires Forward(p.code) && s' == s.(slot := s'.slot)
    ensures Observed(p, Exec(w, p, d, s)) == Observed(p, Exec(w, p, d', s'))
    decreases |p.code| - s.ip
  {
    if s.ip < |p.code| {
      SlotStep(w, p, d, d', s, s');
      match Step(w, p, d, s)
      case Next(n) =>
        StepForward(w, p, d, s);
        SlotUnseen(w, p, d, d', n, Step(w, p, d', s').s);
      case Fault(_) =>
    }
  }

  /** The CHECKPOINT before a step_start changes nothing but the store. */
  lemma FromStepStart(w: World, p: Program, s: State)
    requires Forward(p.code) && ControlFlow.Structured(p.code) && s.ip < |p.code| && p.code[s.ip].EmitStepStart?
    ensures s.ip > 0 && p.code[s.ip - 1] == Checkpoint(p.code[s.ip].nid)
    ensures Observed(p, Exec(w, p, true, s)) == Observed(p, Exec(w, p, true, s.(ip := s.ip - 1)))
  {
    ControlFlow.StructuredAt(p.code, s.ip);
    var c := s.(ip := s.ip - 1);
    ExecNext(w, p, false, c, s);
    SlotUnseen(w, p, true, false, s, s);
    SlotUnseen(w, p, false, true, c, c);
  }

  /** `replay(from_step)` finds the main-line stages and nothing else: a branch of a Parallel block raises KeyError. */
  lemma FindStepExactly(w: World, rs: seq<RNode>, t: Table, name: string)
    ensures FindStep(Assemble(w, rs, t).code, name, 0).Some? <==> name in MainLine(rs)
  {
    var code, body := Assemble(w, rs, t).code, Code(w, rs, 1);
    StepsCode(w, rs, 1);
    StepsAppend([EmitPipelineStart], body);
    StepsAppend([EmitPipelineStart] + body, [EmitPipelineEnd]);
    assert Steps([EmitPipelineStart]) == {} && Steps([EmitPipelineEnd]) == {};
    assert Steps(code) == MainLine(rs);
    var found := FindStep(code, name, 0);
    if found.Some? {
      assert code[found.value].EmitStepStart? && code[found.value].nid == name;
    }
  }

  /** `replay(from_step)` runs that stage next, and then exactly its source continuation. */
  lemma ReplayContinues(w: World, rs: seq<RNode>, t: Table, step: string, data: Data, name: string)
    returns (ip: nat, k: seq<RNode>)
    requires AllBound(t, rs) && step in MainLine(rs)
    ensures FindStep(Assemble(w, rs, t).code, step, 0) == Some(ip) && ip > 0
    ensures Continuation(w, rs, 1, ip - 1) == Some(k) && k != [] && HeadId(k[0]) == Some(step)
    ensures var p := Assemble(w, rs, t);
            Forward(p.code)
            && Observed(p, Exec(w, p, true, Resumed(Record(p.version, ip, data), name)))
               == Finished(Run(w, k, Flow(FromSnapshot(data, name), None, [])))
  {
    var p := Assemble(w, rs, t);
    FindStepExactly(w, rs, t, step);
    AssembledParts(w, rs, t);
    ip := FindStep(p.code, step, 0).value;
    var s := Resumed(Record(p.version, ip, data), name);
    FromStepStart(w, p, s);
    k := CheckpointPosition(w, rs, t, ip - 1);
    ContinuationExec(w, p, true, s.(ip := ip - 1), rs, 1, k);
  }
}
