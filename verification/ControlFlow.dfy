/** The shape of compiled code: no placeholders, forward targets, well-nested steps. */
module ControlFlow {
  import opened Primitives
  import opened Bytecode
  import opened Lowering
  import opened Vm

  /** The step that must be open just before an instruction, and the one open just after it. */
  function OpenBefore(i: Instr): Option<string> {
    match i
    case ValidateInput(nid) => Some(nid)
    case Call(nid) => Some(nid)
    case ValidateOutput(nid) => Some(nid)
    case EmitStepEnd(nid) => Some(nid)
    case _ => None
  }

  function OpenAfter(i: Instr): Option<string> {
    match i
    case EmitStepStart(nid) => Some(nid)
    case ValidateInput(nid) => Some(nid)
    case Call(nid) => Some(nid)
    case ValidateOutput(nid) => Some(nid)
    case _ => None
  }

  /** A target inside the fragment is strictly ahead and between steps; any other is the exit. */
  ghost predicate TargetOk(c: seq<Instr>, base: nat, exit: int, i: int, target: int) {
    && 0 <= i && base + i < target
    && (if target < base + |c| then OpenBefore(c[target - base]).None? else target == exit)
  }

  ghost predicate InstrOk(c: seq<Instr>, base: nat, exit: int, i: int)
    requires 0 <= i < |c|
  {
    && (i + 1 < |c| ==> OpenAfter(c[i]) == OpenBefore(c[i + 1]))
    && (c[i].Jump? ==> TargetOk(c, base, exit, i, c[i].target))
    && (c[i].Route? ==> forall n | n in c[i].routeMap ::
          TargetOk(c, base, exit, i, c[i].routeMap[n]) && c[i].routeMap[n] < base + |c|)
    && (c[i].EmitStepStart? ==> i > 0 && c[i - 1] == Checkpoint(c[i].nid))
    && (c[i].Checkpoint? ==> i + 1 < |c| && c[i + 1] == EmitStepStart(c[i].nid))
  }

  /** Code that stands at `base` and is left only at its end or by a jump to `exit`. */
  ghost predicate Fragment(c: seq<Instr>, base: nat, exit: int) {
    && base + |c| <= exit
    && (c != [] ==> OpenBefore(c[0]).None? && OpenAfter(Last(c)).None?)
    && forall i :: 0 <= i < |c| ==> InstrOk(c, base, exit, i)
  }

  lemma FragmentAppend(a: seq<Instr>, b: seq<Instr>, base: nat, mid: nat, exitA: int, exit: int)
    requires mid == base + |a|
    requires Fragment(a, base, exitA) && Fragment(b, mid, exit)
    requires exitA == exit || (exitA == mid && (b == [] ==> exit == exitA))
    ensures Fragment(a + b, base, exit)
  {
    var c := a + b;
    forall i | 0 <= i < |c|
      ensures InstrOk(c, base, exit, i)
    {
      if i < |a| {
        assert InstrOk(a, base, exitA, i);
        InstrLeft(a, b, base, mid, exitA, exit, i);
      } else {
        assert InstrOk(b, mid, exit, i - |a|);
        InstrRight(a, b, base, mid, exit, i - |a|);
      }
    }
    if b != [] {
      assert Last(c) == Last(b);
    } else {
      assert c == a;
    }
  }

  lemma InstrLeft(a: seq<Instr>, b: seq<Instr>, base: nat, mid: nat, exitA: int, exit: int, i: nat)
    requires mid == base + |a|
    requires i < |a| && Fragment(a, base, exitA) && Fragment(b, mid, exit)
    requires exitA == exit || (exitA == mid && (b == [] ==> exit == exitA))
    requires InstrOk(a, base, exitA, i)
    ensures InstrOk(a + b, base, exit, i)
  {
    var c := a + b;
    assert c[i] == a[i] && (i > 0 ==> c[i - 1] == a[i - 1]) && (i + 1 < |a| ==> c[i + 1] == a[i + 1]);
    if i + 1 == |a| && b != [] {
      assert c[i + 1] == b[0] && a[i] == Last(a);
    }
    forall t | TargetOk(a, base, exitA, i, t)
      ensures TargetOk(c, base, exit, i, t)
    {
      if t < base + |a| {
        assert c[t - base] == a[t - base];
      } else if t < base + |c| {
        assert c[t - base] == b[0];
      }
    }
  }

  lemma InstrRight(a: seq<Instr>, b: seq<Instr>, base: nat, mid: nat, exit: int, i: nat)
    requires mid == base + |a| && i < |b| && Fragment(b, mid, exit)
    requires InstrOk(b, mid, exit, i)
    ensures InstrOk(a + b, base, exit, |a| + i)
  {
    var c := a + b;
    assert c[|a| + i] == b[i] && (i > 0 ==> c[|a| + i - 1] == b[i - 1]) && (i + 1 < |b| ==> c[|a| + i + 1] == b[i + 1]);
    forall t | TargetOk(b, mid, exit, i, t)
      ensures TargetOk(c, base, exit, |a| + i, t)
    {
      if t < base + |c| {
        assert c[t - base] == b[t - base - |a|];
      }
    }
  }

  lemma StageFragment(w: World, nid: string, fn: Fn, base: nat, exit: int)
    requires base + |StageCode(w, nid, fn)| <= exit
    ensures Fragment(StageCode(w, nid, fn), base, exit)
  {
    var c := StageCode(w, nid, fn);
    forall i | 0 <= i < |c|
      ensures InstrOk(c, base, exit, i)
    {
    }
  }

  lemma SimpleFragment(w: World, s: Simple, base: nat, exit: int)
    requires base + |SimpleCode(w, s)| <= exit
    ensures Fragment(SimpleCode(w, s), base, exit)
  {
    match s
    case Stage(nid, fn) => StageFragment(w, nid, fn, base, exit);
    case Block(_, _) =>
  }

  lemma {:induction false} BodyFragment(w: World, body: seq<Simple>, base: nat, exit: int)
    requires base + |BodyCode(w, body)| <= exit
    ensures Fragment(BodyCode(w, body), base, exit)
  {
    if body != [] {
      var head := SimpleCode(w, body[0]);
      var mid := base + |head|;
      SimpleFragment(w, body[0], base, exit);
      BodyFragment(w, body[1..], mid, exit);
      FragmentAppend(head, BodyCode(w, body[1..]), base, mid, exit, exit);
    }
  }

  lemma RouteFragment(w: World, r: RouteBody, base: nat, cont: int)
    requires base + |RouteCode(w, r, cont)| <= cont
    ensures Fragment(RouteCode(w, r, cont), base, cont)
  {
    var body := BodyCode(w, r.body);
    var mid := base + |body|;
    BodyFragment(w, r.body, base, cont);
    assert Fragment([Jump(cont)], mid, cont);
    FragmentAppend(body, [Jump(cont)], base, mid, cont, cont);
  }

  lemma {:induction false} RoutesFragment(w: World, routes: seq<RouteBody>, base: nat, cont: int)
    requires base + |RoutesCode(w, routes, cont)| <= cont
    ensures Fragment(RoutesCode(w, routes, cont), base, cont)
  {
    if routes != [] {
      var head := RouteCode(w, routes[0], cont);
      var mid := base + |head|;
      RouteFragment(w, routes[0], base, cont);
      RoutesFragment(w, routes[1..], mid, cont);
      FragmentAppend(head, RoutesCode(w, routes[1..], cont), base, mid, cont, cont);
    }
  }

  /** Address `t` lies in the code at `base`, between two steps. */
  ghost predicate BetweenSteps(c: seq<Instr>, base: nat, t: int) {
    base <= t < base + |c| && OpenBefore(c[t - base]).None?
  }

  lemma BetweenStepsRight(a: seq<Instr>, b: seq<Instr>, base: nat, mid: nat, t: int)
    requires mid == base + |a| && BetweenSteps(b, mid, t)
    ensures BetweenSteps(a + b, base, t)
  {
    assert (a + b)[t - base] == b[t - mid];
  }

  lemma TargetsUnfold(w: World, routes: seq<RouteBody>, base: nat, mid: nat)
    requires routes != [] && mid == base + |RouteCode(w, routes[0], -1)|
    ensures RouteTargets(w, routes, base) == map[routes[0].name := base] + RouteTargets(w, routes[1..], mid)
  {
  }

  /** Every route name leads to the first instruction of a body, which is between steps. */
  lemma {:induction false} TargetBetweenSteps(w: World, routes: seq<RouteBody>, base: nat, cont: int, name: string)
    requires base + |RoutesCode(w, routes, cont)| <= cont && name in RouteTargets(w, routes, base)
    ensures BetweenSteps(RoutesCode(w, routes, cont), base, RouteTargets(w, routes, base)[name])
  {
    var head, rest := RouteCode(w, routes[0], cont), RoutesCode(w, routes[1..], cont);
    var mid := base + |head|;
    TargetsUnfold(w, routes, base, mid);
    if name in RouteTargets(w, routes[1..], mid) {
      TargetBetweenSteps(w, routes[1..], mid, cont, name);
      BetweenStepsRight(head, rest, base, mid, RouteTargets(w, routes[1..], mid)[name]);
    } else {
      RouteFragment(w, routes[0], base, cont);
      assert (head + rest)[0] == head[0];
    }
  }

  lemma {:induction false} RoutesLength(w: World, routes: seq<RouteBody>, a: int, b: int)
    ensures |RoutesCode(w, routes, a)| == |RoutesCode(w, routes, b)|
  {
    if routes != [] {
      RoutesLength(w, routes[1..], a, b);
    }
  }

  lemma RouterParts(w: World, base: nat, nid: string, fn: Fn, routes: seq<RouteBody>, start: nat, cont: nat)
    requires start == base + StageLength(w, fn) + 1 && cont == base + |RouterCode(w, nid, fn, routes, base)|
    ensures RouterCode(w, nid, fn, routes, base)
         == (StageCode(w, nid, fn) + [Route(RouteTargets(w, routes, start))]) + RoutesCode(w, routes, cont)
    ensures cont == start + |RoutesCode(w, routes, cont)|
  {
    RoutesLength(w, routes, start + |RoutesCode(w, routes, -1)|, -1);
  }

  lemma RouterFragment(w: World, nid: string, fn: Fn, routes: seq<RouteBody>, base: nat, exit: int)
    requires exit == base + |RouterCode(w, nid, fn, routes, base)|
    ensures Fragment(RouterCode(w, nid, fn, routes, base), base, exit)
  {
    var stage := StageCode(w, nid, fn);
    var mid, start := base + |stage|, base + |stage| + 1;
    RouterParts(w, base, nid, fn, routes, start, exit);
    StageFragment(w, nid, fn, base, exit);
    RouteThenBodies(w, routes, mid, start, exit);
    var route, bodies := [Route(RouteTargets(w, routes, start))], RoutesCode(w, routes, exit);
    FragmentAppend(stage, route + bodies, base, mid, exit, exit);
    AppendAssoc(stage, route, bodies);
  }

  lemma RouteThenBodies(w: World, routes: seq<RouteBody>, base: nat, start: nat, cont: int)
    requires start == base + 1 && cont == start + |RoutesCode(w, routes, cont)|
    ensures Fragment([Route(RouteTargets(w, routes, start))] + RoutesCode(w, routes, cont), base, cont)
  {
    var m, rest := RouteTargets(w, routes, start), RoutesCode(w, routes, cont);
    RoutesFragment(w, routes, start, cont);
    forall n | n in m
      ensures BetweenSteps(rest, start, m[n])
    {
      TargetBetweenSteps(w, routes, start, cont, n);
    }
    RouteFirst(m, rest, base, start, cont);
  }

  lemma RouteFirst(m: map<string, int>, rest: seq<Instr>, base: nat, start: nat, cont: int)
    requires start == base + 1 && Fragment(rest, start, cont)
    requires forall n | n in m :: BetweenSteps(rest, start, m[n])
    ensures Fragment([Route(m)] + rest, base, cont)
  {
    var c := [Route(m)] + rest;
    forall i | 0 <= i < |c|
      ensures InstrOk(c, base, cont, i)
    {
      if i == 0 {
        forall n | n in m
          ensures TargetOk(c, base, cont, 0, m[n])
        {
          assert c[m[n] - base] == rest[m[n] - start];
        }
        if rest != [] {
          assert c[1] == rest[0];
        }
      } else {
        assert InstrOk(rest, start, cont, i - 1);
        InstrRight([Route(m)], rest, base, start, cont, i - 1);
      }
    }
    if rest != [] {
      assert Last(c) == Last(rest);
    }
  }

  lemma NodeFragment(w: World, r: RNode, base: nat, exit: int)
    requires exit == base + |NodeCode(w, r, base)|
    ensures Fragment(NodeCode(w, r, base), base, exit)
  {
    match r
    case Plain(s) => SimpleFragment(w, s, base, exit);
    case Router(nid, fn, routes) => RouterFragment(w, nid, fn, routes, base, exit);
  }

  lemma {:induction false} CodeFragment(w: World, rs: seq<RNode>, base: nat, exit: int)
    requires exit == base + |Code(w, rs, base)|
    ensures Fragment(Code(w, rs, base), base, exit)
    decreases |rs|
  {
    if rs != [] {
      var head := NodeCode(w, rs[0], base);
      var mid := base + |head|;
      CodeCons(w, rs, base, mid);
      NodeFragment(w, rs[0], base, mid);
      CodeFragment(w, rs[1..], mid, exit);
      FragmentAppend(head, Code(w, rs[1..], mid), base, mid, mid, exit);
    }
  }

  /** What the compiler guarantees of every finished program. */
  ghost predicate Structured(code: seq<Instr>) {
    code != [] && Last(code) == EmitPipelineEnd && Fragment(Front(code), 0, |Front(code)|)
  }

  /** Compiled code holds no placeholder, and every target is in range, strictly forward and between steps. */
  lemma CompiledIsStructured(w: World, rs: seq<RNode>, t: Table)
    ensures Structured(Assemble(w, rs, t).code)
  {
    var body := Code(w, rs, 1);
    var c := [EmitPipelineStart] + body;
    var exit := |c|;
    CodeFragment(w, rs, 1, exit);
    assert Fragment([EmitPipelineStart], 0, 1);
    FragmentAppend([EmitPipelineStart], body, 0, 1, 1, exit);
    assert Front(Assemble(w, rs, t).code) == c;
  }

  lemma StructuredForward(code: seq<Instr>)
    requires Structured(code)
    ensures Forward(code)
  {
    forall i | 0 <= i < |code|
      ensures ForwardAt(code, i)
    {
      if i < |code| - 1 {
        assert Front(code)[i] == code[i];
        assert InstrOk(Front(code), 0, |Front(code)|, i);
      }
    }
  }

  /** Structure seen at one instruction of a whole program. */
  lemma StructuredAt(code: seq<Instr>, i: nat)
    requires Structured(code) && i < |code|
    ensures i + 1 < |code| ==> OpenAfter(code[i]) == OpenBefore(code[i + 1])
    ensures code[i].Jump? ==> i < code[i].target < |code| && OpenBefore(code[code[i].target]).None?
    ensures code[i].Route? ==> forall n | n in code[i].routeMap ::
              i < code[i].routeMap[n] < |code| && OpenBefore(code[code[i].routeMap[n]]).None?
    ensures code[i].EmitStepStart? ==> i > 0 && code[i - 1] == Checkpoint(code[i].nid)
    ensures code[i].Checkpoint? ==> i + 1 < |code| && code[i + 1] == EmitStepStart(code[i].nid)
  {
    var f := Front(code);
    if i < |f| {
      assert InstrOk(f, 0, |f|, i);
      assert f[i] == code[i] && (i > 0 ==> f[i - 1] == code[i - 1]) && (i + 1 < |f| ==> f[i + 1] == code[i + 1]);
      forall t | TargetOk(f, 0, |f|, i, t)
        ensures i < t < |code| && OpenBefore(code[t]).None?
      {
        if t < |f| {
          assert f[t] == code[t];
        }
      }
      if i + 1 == |f| {
        assert f[i] == Last(f) && code[i + 1] == Last(code);
      }
    }
  }
}
