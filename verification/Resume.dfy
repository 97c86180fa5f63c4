/** Crash and resume: what a stored checkpoint stands for, and why restarting from it loses nothing. */
module Resume {
  import opened Primitives
  import opened Contexts
  import opened Bytecode
  import opened Lowering
  import opened Runs
  import opened Vm
  import opened ControlFlow
  import Spans

  // ------------------------------------------------------- what is asked of stages

  ghost predicate SameResult(a: StageResult, b: StageResult) {
    match (a, b)
    case (Returned(c), Returned(c')) => c.data == c'.data
    case (Sent(r, patch), Sent(r', patch')) => r == r' && patch == patch'
    case (Raised, Raised) => true
    case _ => false
  }

  /** What a stage does depends on the data it is given, not on the written set or the context's name. */
  ghost predicate DataOnly(w: World, p: Program) {
    forall nid, c: Context, c': Context | nid in p.table && c.data == c'.data ::
      SameResult(w.call(nid, p.table[nid], c), w.call(nid, p.table[nid], c'))
  }

  ghost predicate NeverSends(w: World, nid: string, fn: Fn) {
    forall c: Context :: !w.call(nid, fn, c).Sent?
  }

  /** Nothing but the end of the current step separates `ip` from a ROUTE. */
  predicate RouteAhead(code: seq<Instr>, ip: nat)
    decreases |code| - ip
  {
    && ip < |code|
    && (code[ip].Route? || ((code[ip].ValidateOutput? || code[ip].EmitStepEnd?) && RouteAhead(code, ip + 1)))
  }

  ghost predicate SendIsRouted(w: World, t: Table, code: seq<Instr>, i: nat)
    requires i < |code|
  {
    code[i].Call? && code[i].nid in t ==> NeverSends(w, code[i].nid, t[code[i].nid]) || RouteAhead(code, i + 1)
  }

  /** Only routers return Send. */
  ghost predicate SendsAreRouted(w: World, t: Table, code: seq<Instr>) {
    forall i :: 0 <= i < |code| ==> SendIsRouted(w, t, code, i)
  }

  ghost predicate Durable(w: World, p: Program) {
    Structured(p.code) && Forward(p.code) && DataOnly(w, p) && SendsAreRouted(w, p.table, p.code)
  }

  // --------------------------------------------------------------- partial runs

  /** The state after `n` instructions of a durable run, or where it ended before that. */
  ghost function After(w: World, p: Program, s: State, n: nat): State
    requires Forward(p.code)
    decreases n
  {
    if n == 0 || s.ip >= |p.code| then s
    else
      match Step(w, p, true, s)
      case Fault(_) => s
      case Next(s') => After(w, p, s', n - 1)
  }

  lemma {:induction false} AfterAdd(w: World, p: Program, s: State, m: nat, n: nat)
    requires Forward(p.code)
    ensures After(w, p, After(w, p, s, m), n) == After(w, p, s, m + n)
    decreases m
  {
    if m > 0 && s.ip < |p.code| {
      match Step(w, p, true, s)
      case Next(s') => AfterAdd(w, p, s', m - 1, n);
      case Fault(_) => Stuck(w, p, s, n);
    } else if s.ip >= |p.code| {
      Stuck(w, p, s, n);
    }
  }

  lemma Stuck(w: World, p: Program, s: State, n: nat)
    requires Forward(p.code) && (s.ip < |p.code| ==> Step(w, p, true, s).Fault?)
    ensures After(w, p, s, n) == s
  {
  }

  lemma {:induction false} ExecAfter(w: World, p: Program, s: State, n: nat)
    requires Forward(p.code)
    ensures Exec(w, p, true, After(w, p, s, n)) == Exec(w, p, true, s)
    decreases n
  {
    if n > 0 && s.ip < |p.code| {
      match Step(w, p, true, s)
      case Next(s') => ExecAfter(w, p, s', n - 1);
      case Fault(_) =>
    }
  }

  /** From any ip a run ends within as many instructions as there are left in the program. */
  lemma {:induction false} RunEnds(w: World, p: Program, s: State, n: nat)
    requires Forward(p.code) && s.ip + n >= |p.code|
    ensures var end := After(w, p, s, n);
            if end.ip < |p.code| then
              && Step(w, p, true, end).Fault?
              && Exec(w, p, true, s) == Failed(AtFault(p, end), Step(w, p, true, end).error)
            else Exec(w, p, true, s) == Completed(end)
    decreases n
  {
    if n > 0 && s.ip < |p.code| {
      match Step(w, p, true, s)
      case Next(s') =>
        StepForward(w, p, true, s);
        RunEnds(w, p, s', n - 1);
      case Fault(_) =>
    }
  }

  // ----------------------------------------------- runs alike but for written sets

  /** `s` is where `t` is, with the callbacks `pre` before it; contexts are compared by data. */
  ghost predicate Alike(pre: seq<Event>, s: State, t: State) {
    && s.ip == t.ip && s.ctx.data == t.ctx.data && s.pending == t.pending && s.timers == t.timers
    && s.trace == pre + t.trace
  }

  ghost predicate AlikeResults(pre: seq<Event>, a: StepResult, b: StepResult) {
    match (a, b)
    case (Next(s), Next(t)) => Alike(pre, s, t)
    case (Fault(e), Fault(e')) => e == e'
    case _ => false
  }

  /** Branches fork from the data alone: they cannot tell two such bases apart. */
  lemma AlikeForks(w: World, p: Program, ids: seq<string>, mode: ForkMode, joins: bool, c: Context, c': Context)
    requires c.data == c'.data
    ensures var a, b := Forked(w, p, ids, mode, joins, c), Forked(w, p, ids, mode, joins, c');
            match a
            case Ok(x) => b.Ok? && b.value.data == x.data
            case Err(e) => b == Err(e)
  {
    if AllKnown(p, ids) {
      assert Contexts.Fork(c, "") == Contexts.Fork(c', "");
      forall i | 0 <= i < |ids|
        ensures BranchResult(w, p, ids[i], c) == BranchResult(w, p, ids[i], c')
      {
        assert Contexts.Fork(c, ids[i]) == Contexts.Fork(c', ids[i]);
      }
      assert BranchResults(w, p, ids, c) == BranchResults(w, p, ids, c');
    }
  }

  lemma AlikeCall(w: World, p: Program, nid: string, pre: seq<Event>, s: State, t: State)
    requires DataOnly(w, p) && nid in p.table && Alike(pre, s, t)
    ensures AlikeResults(pre, Called(nid, w.call(nid, p.table[nid], s.ctx), s),
                         Called(nid, w.call(nid, p.table[nid], t.ctx), t))
  {
    assert SameResult(w.call(nid, p.table[nid], s.ctx), w.call(nid, p.table[nid], t.ctx));
  }

  lemma AlikeStep(w: World, p: Program, d: bool, pre: seq<Event>, s: State, t: State)
    requires Forward(p.code) && DataOnly(w, p) && Alike(pre, s, t) && s.ip < |p.code|
    ensures AlikeResults(pre, Step(w, p, d, s), Step(w, p, d, t))
    ensures Alike(pre, AtFault(p, s), AtFault(p, t))
  {
    match p.code[s.ip]
    case Call(nid) =>
      if nid in p.table {
        AlikeCall(w, p, nid, pre, s, t);
      }
    case Fork(ids, mode) =>
      AlikeForks(w, p, ids, mode, mode.Parallel? && JoinFollows(p.code, s.ip), s.ctx, t.ctx);
    case _ => AlikeReports(w, p, d, pre, s, t);
  }

  /** The instructions that only log, store, validate or jump. */
  lemma AlikeReports(w: World, p: Program, d: bool, pre: seq<Event>, s: State, t: State)
    requires Forward(p.code) && Alike(pre, s, t) && s.ip < |p.code|
    requires !p.code[s.ip].Call? && !p.code[s.ip].Fork?
    ensures AlikeResults(pre, Step(w, p, d, s), Step(w, p, d, t))
    ensures Alike(pre, AtFault(p, s), AtFault(p, t))
  {
    match p.code[s.ip]
    case Route(m) => assert ForwardAt(p.code, s.ip);
    case Jump(_) =>
    case _ =>
  }

  lemma {:induction false} AlikeAfter(w: World, p: Program, pre: seq<Event>, s: State, t: State, n: nat)
    requires Forward(p.code) && DataOnly(w, p) && Alike(pre, s, t)
    ensures Alike(pre, After(w, p, s, n), After(w, p, t, n))
    decreases n
  {
    if n > 0 && s.ip < |p.code| {
      AlikeStep(w, p, true, pre, s, t);
      match Step(w, p, true, s)
      case Next(s') => AlikeAfter(w, p, pre, s', Step(w, p, true, t).s, n - 1);
      case Fault(_) =>
    }
  }

  /** One run's outcome is another's, by data, with `pre` reported before it. */
  ghost predicate SameFrom(pre: seq<Event>, a: Outcome, b: Outcome) {
    match (a, b)
    case (Success(c, trace), Success(c', trace')) => c.data == c'.data && trace == pre + trace'
    case (Failure(e, trace), Failure(e', trace')) => e == e' && trace == pre + trace'
    case _ => false
  }

  lemma {:induction false} AlikeExec(w: World, p: Program, pre: seq<Event>, s: State, t: State)
    requires Forward(p.code) && DataOnly(w, p) && Alike(pre, s, t)
    ensures SameFrom(pre, Observed(p, Exec(w, p, true, s)), Observed(p, Exec(w, p, true, t)))
    decreases |p.code| - s.ip
  {
    if s.ip < |p.code| {
      AlikeStep(w, p, true, pre, s, t);
      match Step(w, p, true, s)
      case Next(s') =>
        StepForward(w, p, true, s);
        AlikeExec(w, p, pre, s', Step(w, p, true, t).s);
      case Fault(_) =>
        var f, g := AtFault(p, s), AtFault(p, t);
        var tail := Ends(f.timers) + [Errored(CurrentStep(p.code, f.ip))];
        assert f.trace + Ends(f.timers) + [Errored(CurrentStep(p.code, f.ip))] == f.trace + tail;
        assert g.trace + Ends(g.timers) + [Errored(CurrentStep(p.code, g.ip))] == g.trace + tail;
        AppendAssoc(pre, g.trace, tail);
    }
  }

  // ------------------------------------------------------ the checkpoint invariant

  /** Everything a run relies on at an instruction: its own timers, and no route pending unless one is due. */
  ghost predicate Steady(p: Program, s: State) {
    Spans.SpansOk(p, s) && (s.pending.Some? ==> RouteAhead(p.code, s.ip))
  }

  /** Only a CALL makes a route pending, and then the next ROUTE takes it before anything else runs. */
  lemma PendingStep(w: World, p: Program, s: State)
    requires Forward(p.code) && s.ip < |p.code| && SendIsRouted(w, p.table, p.code, s.ip)
    requires s.pending.Some? ==> RouteAhead(p.code, s.ip)
    ensures var r := Step(w, p, true, s);
            r.Next? && r.s.pending.Some? ==> RouteAhead(p.code, r.s.ip)
  {
    match p.code[s.ip]
    case Call(nid) =>
    case ValidateOutput(_) =>
    case EmitStepEnd(_) =>
    case Route(_) =>
    case _ =>
  }

  lemma SteadyStep(w: World, p: Program, s: State)
    requires Durable(w, p) && Steady(p, s) && s.ip < |p.code|
    ensures Step(w, p, true, s).Next? ==> Steady(p, Step(w, p, true, s).s)
  {
    Spans.SpansStep(w, p, true, s);
    PendingStep(w, p, s);
  }

  lemma {:induction false} SteadyAfter(w: World, p: Program, s: State, n: nat)
    requires Durable(w, p) && Steady(p, s)
    ensures Steady(p, After(w, p, s, n))
    decreases n
  {
    if n > 0 && s.ip < |p.code| {
      SteadyStep(w, p, s);
      match Step(w, p, true, s)
      case Next(s') => SteadyAfter(w, p, s', n - 1);
      case Fault(_) =>
    }
  }

  lemma FreshIsSteady(p: Program, ctx: Context)
    requires Structured(p.code)
    ensures Steady(p, Fresh(ctx))
  {
    if |p.code| > 1 {
      assert Front(p.code)[0] == p.code[0];
    } else {
      assert p.code[0] == Last(p.code);
    }
  }

  /** Where a stored record may point: a CHECKPOINT, or the step_start that a replay from a step chose. */
  predicate Resumable(code: seq<Instr>, ip: nat) {
    ip < |code| && (code[ip].Checkpoint? || code[ip].EmitStepStart?)
  }

  /** The record stands for state `c`: what the CHECKPOINT there saves, or what the run resumed from. */
  ghost predicate SavedAt(p: Program, slot: Record, c: State) {
    Resumable(p.code, c.ip) && slot == Record(p.version, c.ip, c.ctx.data)
  }

  /** A run starts with an empty slot, or resumes from the record its slot holds. */
  ghost predicate Origin(p: Program, s: State) {
    Steady(p, s) && (s.slot.Some? ==> SavedAt(p, s.slot.value, s))
  }

  /**
   * The stored record was taken in this run: the state at the time is `After(…, m)`, and unless it
   * is the very start it stands at a CHECKPOINT.
   */
  lemma {:induction false} LatestCheckpoint(w: World, p: Program, s: State, n: nat) returns (m: nat)
    requires Durable(w, p) && Origin(p, s)
    ensures m <= n
    ensures var t, c := After(w, p, s, n), After(w, p, s, m);
            t.slot.Some? ==>
              && SavedAt(p, t.slot.value, c)
              && (p.code[c.ip].Checkpoint? || (m == 0 && t.slot == s.slot))
    decreases n
  {
    m := 0;
    if n > 0 {
      m := LatestCheckpoint(w, p, s, n - 1);
      var t := After(w, p, s, n - 1);
      AfterAdd(w, p, s, n - 1, 1);
      if t.ip < |p.code| && p.code[t.ip].Checkpoint? {
        m := n - 1;
      } else {
        SlotKept(w, p, t);
      }
    }
  }

  lemma SlotKept(w: World, p: Program, s: State)
    requires Forward(p.code)
    requires s.ip < |p.code| ==> !p.code[s.ip].Checkpoint?
    ensures After(w, p, s, 1).slot == s.slot
  {
    if s.ip < |p.code| && Step(w, p, true, s).Next? {
      assert After(w, p, Step(w, p, true, s).s, 0) == Step(w, p, true, s).s;
    }
  }

  /** Resuming from what `c` saved starts alike to `c`: nothing is pending and no timer runs there. */
  lemma ResumedAlike(p: Program, c: State, slot: Record, name: string)
    requires Steady(p, c) && SavedAt(p, slot, c)
    ensures c.pending.None? && Alike(c.trace, c, Resumed(slot, name)) && Origin(p, Resumed(slot, name))
  {
    assert c.trace + [] == c.trace;
  }

  /**
   * The checkpoint invariant, at every reachable state of a run started fresh: the stored version
   * is the program's, the stored ip is a CHECKPOINT at or before the current ip, no route was pending
   * there, and re-running from it passes through the current state, up to the written set.
   */
  lemma CheckpointInvariant(w: World, p: Program, ctx: Context, n: nat, name: string) returns (m: nat)
    requires Durable(w, p)
    ensures m <= n
    ensures var s, c := After(w, p, Fresh(ctx), n), After(w, p, Fresh(ctx), m);
            s.slot.Some? ==>
              && s.slot.value.version == p.version
              && s.slot.value.ip == c.ip <= s.ip
              && c.ip < |p.code| && p.code[c.ip].Checkpoint?
              && c.pending.None?
              && Alike(c.trace, s, After(w, p, Resumed(s.slot.value, name), n - m))
  {
    var f := Fresh(ctx);
    FreshIsSteady(p, ctx);
    m := LatestCheckpoint(w, p, f, n);
    var s, c := After(w, p, f, n), After(w, p, f, m);
    if s.slot.Some? {
      SteadyAfter(w, p, f, m);
      ResumedAlike(p, c, s.slot.value, name);
      AlikeAfter(w, p, c.trace, c, Resumed(s.slot.value, name), n - m);
      AfterAdd(w, p, f, m, n - m);
      AfterForward(w, p, c, n - m);
    }
  }

  lemma {:induction false} AfterForward(w: World, p: Program, s: State, n: nat)
    requires Forward(p.code)
    ensures s.ip <= After(w, p, s, n).ip
    decreases n
  {
    if n > 0 && s.ip < |p.code| {
      StepForward(w, p, true, s);
      match Step(w, p, true, s)
      case Next(s') => AfterForward(w, p, s', n - 1);
      case Fault(_) =>
    }
  }

  // ------------------------------------------------------------- crash and resume

  /** An attempt cut short after so many instructions, by a crash or an exception, then a resume under some name. */
  datatype Cut = Cut(instructions: nat, name: string)

  /** Where the attempt after these cuts of a run from `start` begins; None if a cut left nothing to resume from. */
  ghost function AttemptFrom(w: World, p: Program, start: State, cuts: seq<Cut>): Option<State>
    requires Forward(p.code)
  {
    if cuts == [] then Some(start)
    else
      match AttemptFrom(w, p, start, Front(cuts))
      case None => None
      case Some(t) =>
        var slot := After(w, p, t, Last(cuts).instructions).slot;
        if slot.None? then None else Some(Resumed(slot.value, Last(cuts).name))
  }

  ghost function Attempt(w: World, p: Program, ctx: Context, cuts: seq<Cut>): Option<State>
    requires Forward(p.code)
  {
    AttemptFrom(w, p, Fresh(ctx), cuts)
  }

  /** Resuming from any record of this version that points where it may is an origin. */
  lemma RecordIsOrigin(p: Program, record: Record, name: string)
    requires record.version == p.version && Resumable(p.code, record.ip)
    ensures Origin(p, Resumed(record, name))
  {
  }

  /** Every attempt starts where the uninterrupted run once stood, after `n` instructions. */
  lemma {:induction false} AttemptsFollow(w: World, p: Program, start: State, cuts: seq<Cut>) returns (n: nat)
    requires Durable(w, p) && Origin(p, start) && start.trace == [] && AttemptFrom(w, p, start, cuts).Some?
    ensures var c, t := After(w, p, start, n), AttemptFrom(w, p, start, cuts).value;
            Alike(c.trace, c, t) && Origin(p, t) && Steady(p, c) && t.trace == []
    decreases |cuts|
  {
    n := 0;
    if cuts != [] {
      var i := AttemptsFollow(w, p, start, Front(cuts));
      var last := AttemptFrom(w, p, start, Front(cuts)).value;
      var cut := Last(cuts);
      var m := LatestCheckpoint(w, p, last, cut.instructions);
      var c := After(w, p, start, i);
      var saved := After(w, p, last, m);
      AlikeAfter(w, p, c.trace, c, last, m);
      AfterAdd(w, p, start, i, m);
      SteadyAfter(w, p, last, m);
      SteadyAfter(w, p, c, m);
      ResumedAlike(p, saved, After(w, p, last, cut.instructions).slot.value, cut.name);
      n := i + m;
      var c' := After(w, p, start, n);
      assert c'.trace + [] == c'.trace;
    }
  }

  /**
   * Crash/resume equivalence, from a fresh start or from any stored record, a replay's included. After
   * any number of attempts, each cut at an arbitrary instruction and resumed, the last one ends like
   * one uninterrupted run: same success and data, or same error. And the callbacks of the uninterrupted
   * run are those up to the checkpoint followed by exactly those of the last attempt, so no step
   * finished before the checkpoint is run again, and none is left out.
   */
  lemma CrashResumeFrom(w: World, p: Program, start: State, cuts: seq<Cut>) returns (n: nat)
    requires Durable(w, p) && Origin(p, start) && start.trace == [] && AttemptFrom(w, p, start, cuts).Some?
    ensures var t, c := AttemptFrom(w, p, start, cuts).value, After(w, p, start, n);
            && c.ip == t.ip && c.ctx.data == t.ctx.data
            && SameFrom(c.trace, Observed(p, Exec(w, p, true, start)), Observed(p, Exec(w, p, true, t)))
  {
    n := AttemptsFollow(w, p, start, cuts);
    var t, c := AttemptFrom(w, p, start, cuts).value, After(w, p, start, n);
    AlikeExec(w, p, c.trace, c, t);
    ExecAfter(w, p, start, n);
  }

  /** The same for a run started fresh. */
  lemma CrashResume(w: World, p: Program, ctx: Context, cuts: seq<Cut>) returns (n: nat)
    requires Durable(w, p) && Attempt(w, p, ctx, cuts).Some?
    ensures var t, c := Attempt(w, p, ctx, cuts).value, After(w, p, Fresh(ctx), n);
            && c.ip == t.ip && c.ctx.data == t.ctx.data
            && SameFrom(c.trace, Observed(p, Exec(w, p, true, Fresh(ctx))), Observed(p, Exec(w, p, true, t)))
  {
    FreshIsSteady(p, ctx);
    n := CrashResumeFrom(w, p, Fresh(ctx), cuts);
  }

  lemma {:induction false} SlotStays(w: World, p: Program, s: State, n: nat)
    requires Forward(p.code) && s.slot.Some?
    ensures After(w, p, s, n).slot.Some?
    decreases n
  {
    if n > 0 && s.ip < |p.code| {
      match Step(w, p, true, s)
      case Next(s') => SlotStays(w, p, s', n - 1);
      case Fault(_) =>
    }
  }

  /** Only the first cut can leave nothing to resume from: the one that comes before anything is stored. */
  lemma {:induction false} OnlyTheFirstCutLoses(w: World, p: Program, start: State, cuts: seq<Cut>)
    requires Forward(p.code)
    ensures AttemptFrom(w, p, start, cuts).None? <==>
              cuts != [] && After(w, p, start, cuts[0].instructions).slot.None?
    decreases |cuts|
  {
    if |cuts| > 1 {
      OnlyTheFirstCutLoses(w, p, start, Front(cuts));
      var t := AttemptFrom(w, p, start, Front(cuts));
      if t.Some? {
        SlotStays(w, p, t.value, Last(cuts).instructions);
      }
    } else if |cuts| == 1 {
      assert Front(cuts) == [];
    }
  }

  // ---------------------------------------------------------- when a Send leaks

  /** Like `Alike`, except that `s` still has a route pending that `t` does not know of. */
  ghost predicate AlikeButPending(pre: seq<Event>, s: State, t: State) {
    && s.ip == t.ip && s.ctx.data == t.ctx.data && s.pending.Some? && t.pending.None? && s.timers == t.timers
    && s.trace == pre + t.trace
  }

  /** The run from `s` comes to a ROUTE before any stage sends anew: the ROUTE takes what was pending at `s`. */
  ghost predicate ReachesRoute(w: World, p: Program, s: State)
    requires Forward(p.code)
    decreases |p.code| - s.ip
  {
    && s.ip < |p.code|
    && (p.code[s.ip].Route? ||
        match Step(w, p, true, s)
        case Fault(_) => false
        case Next(s') =>
          StepForward(w, p, true, s);
          !Sends(w, p, s) && ReachesRoute(w, p, s'))
  }

  ghost predicate Sends(w: World, p: Program, s: State)
    requires s.ip < |p.code|
  {
    && p.code[s.ip].Call? && p.code[s.ip].nid in p.table
    && w.call(p.code[s.ip].nid, p.table[p.code[s.ip].nid], s.ctx).Sent?
  }

  /** Short of a ROUTE the two runs step alike, and a new Send makes them alike altogether. */
  lemma PendingUnseen(w: World, p: Program, pre: seq<Event>, s: State, t: State)
    requires Forward(p.code) && DataOnly(w, p) && AlikeButPending(pre, s, t)
    requires s.ip < |p.code| && !p.code[s.ip].Route?
    ensures var a, b := Step(w, p, true, s), Step(w, p, true, t);
            match a
            case Fault(e) => b == Fault(e)
            case Next(s') => b.Next? && if Sends(w, p, s) then Alike(pre, s', b.s) else AlikeButPending(pre, s', b.s)
  {
    match p.code[s.ip]
    case Call(nid) =>
      if nid in p.table {
        PendingCall(w, p, nid, pre, s, t);
      }
    case Fork(ids, mode) =>
      AlikeForks(w, p, ids, mode, mode.Parallel? && JoinFollows(p.code, s.ip), s.ctx, t.ctx);
    case _ =>
  }

  lemma PendingCall(w: World, p: Program, nid: string, pre: seq<Event>, s: State, t: State)
    requires Forward(p.code) && DataOnly(w, p) && AlikeButPending(pre, s, t)
    requires s.ip < |p.code| && p.code[s.ip] == Call(nid) && nid in p.table
    ensures var a, b := Step(w, p, true, s), Step(w, p, true, t);
            match a
            case Fault(e) => b == Fault(e)
            case Next(s') => b.Next? && if Sends(w, p, s) then Alike(pre, s', b.s) else AlikeButPending(pre, s', b.s)
  {
    assert SameResult(w.call(nid, p.table[nid], s.ctx), w.call(nid, p.table[nid], t.ctx));
  }

  lemma {:induction false} TraceGrows(w: World, p: Program, s: State)
    requires Forward(p.code)
    ensures var o := Observed(p, Exec(w, p, true, s));
            |o.trace| >= |s.trace| + if o.Failure? then 1 else 0
    decreases |p.code| - s.ip
  {
    if s.ip < |p.code| {
      match Step(w, p, true, s)
      case Next(s') =>
        StepForward(w, p, true, s);
        TraceGrows(w, p, s');
      case Fault(_) =>
    }
  }

  /** A ROUTE that takes a route on one side and finds none on the other tells the two runs apart. */
  lemma RouteTellsApart(w: World, p: Program, pre: seq<Event>, s: State, t: State)
    requires Structured(p.code) && Forward(p.code) && AlikeButPending(pre, s, t) && Spans.SpansOk(p, s)
    requires s.ip < |p.code| && p.code[s.ip].Route?
    ensures !SameFrom(pre, Observed(p, Exec(w, p, true, s)), Observed(p, Exec(w, p, true, t)))
  {
    var b := Observed(p, Exec(w, p, true, t));
    assert b.Failure? && b.error == RouteWithoutSend && |b.trace| == |t.trace| + 1;
    match Step(w, p, true, s)
    case Fault(e) =>
    case Next(s') =>
      StepForward(w, p, true, s);
      TraceGrows(w, p, s');
      assert |s'.trace| == |s.trace| + 1;
  }

  lemma {:induction false} LeakDecides(w: World, p: Program, pre: seq<Event>, s: State, t: State)
    requires Structured(p.code) && Forward(p.code) && DataOnly(w, p)
    requires AlikeButPending(pre, s, t) && Spans.SpansOk(p, s)
    ensures SameFrom(pre, Observed(p, Exec(w, p, true, s)), Observed(p, Exec(w, p, true, t)))
       <==> !ReachesRoute(w, p, s)
    decreases |p.code| - s.ip
  {
    if s.ip < |p.code| {
      if p.code[s.ip].Route? {
        RouteTellsApart(w, p, pre, s, t);
      } else {
        PendingUnseen(w, p, pre, s, t);
        var b := Step(w, p, true, t);
        match Step(w, p, true, s)
        case Next(s') =>
          StepForward(w, p, true, s);
          Spans.SpansStep(w, p, true, s);
          if Sends(w, p, s) {
            AlikeExec(w, p, pre, s', b.s);
          } else {
            LeakDecides(w, p, pre, s', b.s);
          }
        case Fault(e) =>
          FaultsAlike(p, pre, s, t, e);
      }
    }
  }

  lemma FaultsAlike(p: Program, pre: seq<Event>, s: State, t: State, e: Error)
    requires s.ip == t.ip < |p.code| && !p.code[s.ip].Route? && s.timers == t.timers && s.trace == pre + t.trace
    ensures SameFrom(pre, Observed(p, Failed(AtFault(p, s), e)), Observed(p, Failed(AtFault(p, t), e)))
  {
    var tail := Ends(s.timers) + [Errored(CurrentStep(p.code, s.ip))];
    assert s.trace + Ends(s.timers) + [Errored(CurrentStep(p.code, s.ip))] == s.trace + tail;
    assert t.trace + Ends(t.timers) + [Errored(CurrentStep(p.code, t.ip))] == t.trace + tail;
    AppendAssoc(pre, t.trace, tail);
  }

  /**
   * Whatever the stages send: resuming from a checkpoint gives what the interrupted run would have
   * given, except exactly when a route was pending at the checkpoint and a ROUTE goes on to take it,
   * because the pending route is not part of what is stored.
   */
  lemma ResumeExactly(w: World, p: Program, c: State, slot: Record, name: string)
    requires Structured(p.code) && Forward(p.code) && DataOnly(w, p)
    requires Spans.SpansOk(p, c) && SavedAt(p, slot, c)
    ensures SameFrom(c.trace, Observed(p, Exec(w, p, true, c)), Observed(p, Exec(w, p, true, Resumed(slot, name))))
       <==> c.pending.None? || !ReachesRoute(w, p, c)
  {
    var t := Resumed(slot, name);
    assert c.trace + [] == c.trace;
    if c.pending.None? {
      AlikeExec(w, p, c.trace, c, t);
    } else {
      LeakDecides(w, p, c.trace, c, t);
    }
  }

  // ------------------------------------------------- the discipline, seen in the source

  ghost predicate BodyNeverSends(w: World, body: seq<Simple>) {
    forall i :: 0 <= i < |body| && body[i].Stage? ==> NeverSends(w, body[i].nid, body[i].fn)
  }

  /** No stage but a router returns Send; a branch may, and fails. */
  ghost predicate OnlyRoutersSend(w: World, rs: seq<RNode>) {
    forall i :: 0 <= i < |rs| ==>
      match rs[i]
      case Plain(s) => BodyNeverSends(w, [s])
      case Router(_, _, routes) => forall j :: 0 <= j < |routes| ==> BodyNeverSends(w, routes[j].body)
  }

  lemma {:induction false} RouteAheadLeft(a: seq<Instr>, b: seq<Instr>, i: nat)
    ensures RouteAhead(a, i) ==> RouteAhead(a + b, i)
    decreases |a| - i
  {
    if RouteAhead(a, i) && !a[i].Route? {
      RouteAheadLeft(a, b, i + 1);
    }
  }

  lemma {:induction false} RouteAheadRight(a: seq<Instr>, b: seq<Instr>, i: nat, k: nat)
    requires k == |a| + i
    ensures RouteAhead(b, i) ==> RouteAhead(a + b, k)
    decreases |b| - i
  {
    if RouteAhead(b, i) && !b[i].Route? {
      RouteAheadRight(a, b, i + 1, k + 1);
    }
  }

  lemma RoutedAppend(w: World, t: Table, a: seq<Instr>, b: seq<Instr>)
    requires SendsAreRouted(w, t, a) && SendsAreRouted(w, t, b)
    ensures SendsAreRouted(w, t, a + b)
  {
    var c := a + b;
    forall i | 0 <= i < |c|
      ensures SendIsRouted(w, t, c, i)
    {
      if i < |a| {
        assert SendIsRouted(w, t, a, i);
        RouteAheadLeft(a, b, i + 1);
      } else {
        assert SendIsRouted(w, t, b, i - |a|);
        RouteAheadRight(a, b, i - |a| + 1, i + 1);
      }
    }
  }

  lemma SimpleRouted(w: World, t: Table, s: Simple)
    requires SimpleBound(t, s) && BodyNeverSends(w, [s])
    ensures SendsAreRouted(w, t, SimpleCode(w, s))
  {
    if s.Stage? {
      assert [s][0] == s;
    }
  }

  lemma {:induction false} BodyRouted(w: World, t: Table, body: seq<Simple>)
    requires BodyBound(t, body) && BodyNeverSends(w, body)
    ensures SendsAreRouted(w, t, BodyCode(w, body))
  {
    if body != [] {
      SimpleRouted(w, t, body[0]);
      BodyRouted(w, t, body[1..]);
      RoutedAppend(w, t, SimpleCode(w, body[0]), BodyCode(w, body[1..]));
    }
  }

  lemma {:induction false} RoutesRouted(w: World, t: Table, routes: seq<RouteBody>, cont: int)
    requires forall j :: 0 <= j < |routes| ==> BodyBound(t, routes[j].body) && BodyNeverSends(w, routes[j].body)
    ensures SendsAreRouted(w, t, RoutesCode(w, routes, cont))
  {
    if routes != [] {
      var body := BodyCode(w, routes[0].body);
      BodyRouted(w, t, routes[0].body);
      assert SendsAreRouted(w, t, [Jump(cont)]);
      RoutedAppend(w, t, body, [Jump(cont)]);
      RoutesRouted(w, t, routes[1..], cont);
      RoutedAppend(w, t, RouteCode(w, routes[0], cont), RoutesCode(w, routes[1..], cont));
    }
  }

  /** A router's own call is followed by its ROUTE. */
  lemma RouterRouted(w: World, t: Table, nid: string, fn: Fn, m: map<string, int>)
    ensures SendsAreRouted(w, t, StageCode(w, nid, fn) + [Route(m)])
  {
    var c := StageCode(w, nid, fn) + [Route(m)];
    var end := StageLength(w, fn);
    var call := 2 + InputSteps(w, fn);
    assert RouteAhead(c, end);
    assert c[end - 1] == EmitStepEnd(nid) && RouteAhead(c, end - 1);
    if OutputSteps(w, fn) == 1 {
      assert c[end - 2] == ValidateOutput(nid) && RouteAhead(c, end - 2);
    }
    assert RouteAhead(c, call + 1);
    forall i | 0 <= i < |c| && c[i].Call?
      ensures i == call
    {
    }
  }

  lemma NodeRouted(w: World, t: Table, r: RNode, base: int)
    requires NodeBound(t, r) && OnlyRoutersSend(w, [r])
    ensures SendsAreRouted(w, t, NodeCode(w, r, base))
  {
    assert [r][0] == r;
    match r
    case Plain(s) => SimpleRouted(w, t, s);
    case Router(nid, fn, routes) =>
      var stage := StageCode(w, nid, fn);
      var start := base + |stage| + 1;
      var cont := start + |RoutesCode(w, routes, -1)|;
      RouterRouted(w, t, nid, fn, RouteTargets(w, routes, start));
      RoutesRouted(w, t, routes, cont);
      RoutedAppend(w, t, stage + [Route(RouteTargets(w, routes, start))], RoutesCode(w, routes, cont));
  }

  lemma {:induction false} CodeRouted(w: World, t: Table, rs: seq<RNode>, base: nat)
    requires AllBound(t, rs) && OnlyRoutersSend(w, rs)
    ensures SendsAreRouted(w, t, Code(w, rs, base))
    decreases |rs|
  {
    if rs != [] {
      var head := NodeCode(w, rs[0], base);
      var mid := base + |head|;
      CodeCons(w, rs, base, mid);
      NodeRouted(w, t, rs[0], base);
      CodeRouted(w, t, rs[1..], mid);
      RoutedAppend(w, t, head, Code(w, rs[1..], mid));
    }
  }

  /** Pipelines in which only routers send compile to programs that resume faithfully. */
  lemma CompiledIsDurable(w: World, rs: seq<RNode>, t: Table)
    requires AllBound(t, rs) && OnlyRoutersSend(w, rs) && DataOnly(w, Assemble(w, rs, t))
    ensures Durable(w, Assemble(w, rs, t))
  {
    CompiledIsStructured(w, rs, t);
    StructuredForward(Assemble(w, rs, t).code);
    var body := Code(w, rs, 1);
    CodeRouted(w, t, rs, 1);
    RoutedAppend(w, t, [EmitPipelineStart], body);
    RoutedAppend(w, t, [EmitPipelineStart] + body, [EmitPipelineEnd]);
  }
}
