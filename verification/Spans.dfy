/** Span balance: every main-line step_start is closed exactly once, before the run returns or raises. */
module Spans {
  import opened Primitives
  import opened Bytecode
  import opened Runs
  import opened Vm
  import opened ControlFlow

  /** Exactly the step whose instructions are being executed has a running timer. */
  ghost predicate TimersOk(p: Program, s: State) {
    && s.ip <= |p.code|
    && s.timers == Running(if s.ip < |p.code| then OpenBefore(p.code[s.ip]) else None)
  }

  function Running(step: Option<string>): seq<string> {
    match step
    case None => []
    case Some(nid) => [nid]
  }

  /**
   * The span open at the end of a trace: None if the trace breaks the discipline, that is, opens a
   * step inside a step, closes one that is not open, or reports anything else inside a step.
   */
  function SpanOf(trace: seq<Event>): Option<Option<string>> {
    if trace == [] then Some(None)
    else
      match SpanOf(Front(trace))
      case None => None
      case Some(open) =>
        match Last(trace)
        case StepStarted(nid) => if open.None? then Some(Some(nid)) else None
        case StepEnded(nid) => if open == Some(nid) then Some(None) else None
        case _ => if open.None? then Some(None) else None
  }

  ghost predicate SpansOk(p: Program, s: State) {
    TimersOk(p, s) && SpanOf(s.trace).Some? && s.timers == Running(SpanOf(s.trace).value)
  }

  lemma SpanStep(trace: seq<Event>, e: Event)
    requires SpanOf(trace).Some?
    ensures SpanOf(trace + [e])
         == match e
            case StepStarted(nid) => if SpanOf(trace).value.None? then Some(Some(nid)) else None
            case StepEnded(nid) => if SpanOf(trace).value == Some(nid) then Some(None) else None
            case _ => if SpanOf(trace).value.None? then Some(None) else None
  {
    assert Front(trace + [e]) == trace;
  }

  /** The step open after an instruction is the one open where control goes next. */
  lemma NextOpen(w: World, p: Program, d: bool, s: State)
    requires Structured(p.code) && Forward(p.code) && s.ip < |p.code|
    ensures var r := Step(w, p, d, s);
            r.Next? && r.s.ip < |p.code| ==> OpenBefore(p.code[r.s.ip]) == OpenAfter(p.code[s.ip])
    ensures s.ip == |p.code| - 1 ==> p.code[s.ip].EmitPipelineEnd?
  {
    StructuredAt(p.code, s.ip);
    assert ForwardAt(p.code, s.ip);
    if p.code[s.ip].Fork? && JoinFollows(p.code, s.ip) {
      StructuredAt(p.code, s.ip + 1);
    }
  }

  /** What an instruction reports, and does to the timers, when it goes through. */
  function Reported(i: Instr, s: State): seq<Event> {
    match i
    case EmitPipelineStart => [PipelineStarted]
    case EmitPipelineEnd => [PipelineEnded]
    case EmitStepStart(nid) => [StepStarted(nid)]
    case EmitStepEnd(nid) => [StepEnded(nid)]
    case EmitBranch(ids) => [Branched(ids)]
    case Route(_) => if s.pending.Some? then [Routed(s.pending.value.step, s.pending.value.route)] else []
    case _ => []
  }

  lemma StepReports(w: World, p: Program, d: bool, s: State)
    requires Forward(p.code) && SpansOk(p, s) && s.ip < |p.code|
    ensures var r := Step(w, p, d, s);
            r.Next? ==>
              && r.s.trace == s.trace + Reported(p.code[s.ip], s)
              && r.s.timers == Running(OpenAfter(p.code[s.ip]))
    ensures AtFault(p, s).trace == s.trace + (if p.code[s.ip].Route? then Reported(p.code[s.ip], s) else [])
  {
    assert ForwardAt(p.code, s.ip);
    assert s.trace + [] == s.trace;
  }

  lemma ReportKeepsSpan(trace: seq<Event>, i: Instr, s: State)
    requires SpanOf(trace) == Some(OpenBefore(i))
    ensures SpanOf(trace + Reported(i, s)) == Some(OpenAfter(i))
  {
    var es := Reported(i, s);
    if es == [] {
      assert trace + es == trace;
    } else {
      assert es == [es[0]];
      SpanStep(trace, es[0]);
    }
  }

  lemma SpansStep(w: World, p: Program, d: bool, s: State)
    requires Structured(p.code) && Forward(p.code) && SpansOk(p, s) && s.ip < |p.code|
    ensures var r := Step(w, p, d, s); r.Next? ==> SpansOk(p, r.s)
    ensures var f := AtFault(p, s); SpanOf(f.trace).Some? && f.timers == Running(SpanOf(f.trace).value)
  {
    var i := p.code[s.ip];
    StepReports(w, p, d, s);
    NextOpen(w, p, d, s);
    StepForward(w, p, d, s);
    ReportKeepsSpan(s.trace, i, s);
    assert s.trace + [] == s.trace;
  }

  /** Every way a run ends, its trace is balanced and its error report, if any, comes after the last close. */
  lemma {:induction false} SpansExec(w: World, p: Program, d: bool, s: State)
    requires Structured(p.code) && Forward(p.code) && SpansOk(p, s)
    ensures SpanOf(Observed(p, Exec(w, p, d, s)).trace) == Some(None)
    decreases |p.code| - s.ip
  {
    if s.ip < |p.code| {
      SpansStep(w, p, d, s);
      match Step(w, p, d, s)
      case Next(s') =>
        StepForward(w, p, d, s);
        SpansExec(w, p, d, s');
      case Fault(e) =>
        var f := AtFault(p, s);
        SpansClosed(f.trace, f.timers, Errored(CurrentStep(p.code, f.ip)));
    }
  }

  lemma SpansClosed(trace: seq<Event>, timers: seq<string>, e: Event)
    requires SpanOf(trace).Some? && timers == Running(SpanOf(trace).value) && e.Errored?
    ensures SpanOf(trace + Ends(timers) + [e]) == Some(None)
  {
    if timers == [] {
      assert trace + Ends(timers) == trace;
    } else {
      assert Ends(timers) == [StepEnded(timers[0])];
      SpanStep(trace, StepEnded(timers[0]));
    }
    SpanStep(trace + Ends(timers), e);
  }

  function Count(trace: seq<Event>, e: Event): nat {
    if trace == [] then 0 else Count(Front(trace), e) + if Last(trace) == e then 1 else 0
  }

  /** In a disciplined trace a step has one more start than ends while it is open, and as many otherwise. */
  lemma {:induction false} SpanCounts(trace: seq<Event>, nid: string)
    requires SpanOf(trace).Some?
    ensures Count(trace, StepStarted(nid))
         == Count(trace, StepEnded(nid)) + if SpanOf(trace).value == Some(nid) then 1 else 0
  {
    if trace != [] {
      SpanCounts(Front(trace), nid);
    }
  }

  /** A prefix of a disciplined trace is disciplined: at most one step is open at any instant. */
  lemma {:induction false} SpanPrefix(trace: seq<Event>, n: nat)
    requires SpanOf(trace).Some? && n <= |trace|
    ensures SpanOf(trace[..n]).Some?
  {
    if n < |trace| {
      SpanPrefix(Front(trace), n);
      assert Front(trace)[..n] == trace[..n];
    } else {
      assert trace[..n] == trace;
    }
  }

  /** Where a run may be entered: at the start, at a CHECKPOINT, or at a step_start. */
  ghost predicate Entry(code: seq<Instr>, ip: nat) {
    ip < |code| && OpenBefore(code[ip]).None?
  }

  ghost predicate Entered(p: Program, s: State) {
    Entry(p.code, s.ip) && s.timers == [] && s.trace == []
  }

  /**
   * Span balance of compiled code: entered at ip 0, at a CHECKPOINT or at a step_start, at most one
   * main-line step is open at any instant, and when the run returns or raises each step_start has
   * exactly one step_end, all of them before the error report.
   */
  lemma SpansBalanced(w: World, p: Program, d: bool, s: State)
    requires Structured(p.code) && Forward(p.code) && Entered(p, s)
    ensures Balanced(Observed(p, Exec(w, p, d, s)).trace)
  {
    SpansExec(w, p, d, s);
    var trace := Observed(p, Exec(w, p, d, s)).trace;
    forall nid
      ensures Count(trace, StepStarted(nid)) == Count(trace, StepEnded(nid))
    {
      SpanCounts(trace, nid);
    }
    forall n | 0 <= n <= |trace|
      ensures SpanOf(trace[..n]).Some?
    {
      SpanPrefix(trace, n);
    }
    forall i | 0 <= i < |trace| && trace[i].Errored?
      ensures SpanOf(trace[..i]) == Some(None)
    {
      SpanPrefix(trace, i + 1);
      assert Front(trace[..i + 1]) == trace[..i];
    }
  }

  ghost predicate Balanced(trace: seq<Event>) {
    && (forall nid :: Count(trace, StepStarted(nid)) == Count(trace, StepEnded(nid)))
    && (forall n :: 0 <= n <= |trace| ==> SpanOf(trace[..n]).Some?)
    && (forall i :: 0 <= i < |trace| && trace[i].Errored? ==> SpanOf(trace[..i]) == Some(None))
  }
}
