/** The interpreter's instruction loop as a step function and its runs. */
module Vm {
  import opened Primitives
  import opened Contexts
  import opened Bytecode
  import opened Runs

  /** A stored checkpoint; its run id is the key it is stored under. */
  datatype Record = Record(version: string, ip: nat, data: Data)

  /**
   * The local variables of the loop. `timers` are the keys of `step_timers` in insertion order;
   * `slot` is the store's entry for this run id.
   */
  datatype State = State(
    ip: nat, ctx: Context, pending: Option<Pending>, timers: seq<string>, trace: seq<Event>, slot: Option<Record>)

  datatype StepResult = Next(s: State) | Fault(error: Error)

  datatype RunResult = Completed(s: State) | Failed(s: State, error: Error)

  /** Every jump and route leads strictly forward and inside the program. */
  ghost predicate Forward(code: seq<Instr>) {
    forall i :: 0 <= i < |code| ==> ForwardAt(code, i)
  }

  ghost predicate ForwardAt(code: seq<Instr>, i: int)
    requires 0 <= i < |code|
  {
    match code[i]
    case Jump(target) => i < target < |code|
    case Route(m) => forall name | name in m :: i < m[name] < |code|
    case _ => true
  }

  function OpenTimer(timers: seq<string>, nid: string): seq<string> {
    if nid in timers then timers else timers + [nid]
  }

  function CloseTimer(timers: seq<string>, nid: string): seq<string> {
    if timers == [] then []
    else if timers[0] == nid then timers[1..]
    else [timers[0]] + CloseTimer(timers[1..], nid)
  }

  /** The timers are the keys of a dict: setting one keeps or adds it, popping one removes it, and the others stay. */
  lemma TimersAreKeys(timers: seq<string>, nid: string)
    requires NoDuplicates(timers)
    ensures var r := OpenTimer(timers, nid); NoDuplicates(r) && forall x :: x in r <==> x in timers || x == nid
    ensures var r := CloseTimer(timers, nid); NoDuplicates(r) && forall x :: x in r <==> x in timers && x != nid
  {
    ClosedTimer(timers, nid);
  }

  lemma {:induction false} ClosedTimer(timers: seq<string>, nid: string)
    requires NoDuplicates(timers)
    ensures var r := CloseTimer(timers, nid); NoDuplicates(r) && forall x :: x in r <==> x in timers && x != nid
  {
    if timers != [] {
      var (x, rest) := (timers[0], timers[1..]);
      assert timers == [x] + rest;
      assert NoDuplicates(rest) && x !in rest by {
        assert forall k :: 0 <= k < |rest| ==> rest[k] == timers[k + 1];
      }
      ClosedTimer(rest, nid);
    }
  }

  /** `_run_validation`: a node without a schema accepts everything. */
  function Validates(w: World, schemas: map<string, Schema>, nid: string, data: Data): bool {
    nid in schemas ==> w.conforms(schemas[nid], data)
  }

  /** The `runner` of one forked branch. */
  function BranchResult(w: World, p: Program, nid: string, ctx: Context): Option<Context>
    requires nid in p.table
  {
    var c := Contexts.Fork(ctx, nid);
    if !Validates(w, p.inputs, nid, c.data) then None
    else
      match w.call(nid, p.table[nid], c)
      case Returned(r) => if Validates(w, p.outputs, nid, r.data) then Some(r) else None
      case _ => None
  }

  predicate AllKnown(p: Program, ids: seq<string>) {
    forall i :: 0 <= i < |ids| ==> ids[i] in p.table
  }

  function BranchResults(w: World, p: Program, ids: seq<string>, ctx: Context): (rs: seq<Option<Context>>)
    requires AllKnown(p, ids)
    ensures |rs| == |ids|
    ensures forall i :: 0 <= i < |ids| ==> rs[i] == BranchResult(w, p, ids[i], ctx)
  {
    seq(|ids|, i requires 0 <= i < |ids| => BranchResult(w, p, ids[i], ctx))
  }

  predicate AllSome(rs: seq<Option<Context>>) {
    forall i :: 0 <= i < |rs| ==> rs[i].Some?
  }

  function Values(rs: seq<Option<Context>>): (cs: seq<Context>)
    requires AllSome(rs)
    ensures |cs| == |rs|
    ensures forall i :: 0 <= i < |rs| ==> cs[i] == rs[i].value
  {
    seq(|rs|, i requires 0 <= i < |rs| => rs[i].value)
  }

  /** `_handle_fork`: the context after the branches ran; merged only when a JOIN follows. */
  ghost function Forked(w: World, p: Program, ids: seq<string>, mode: ForkMode, joins: bool, ctx: Context)
    : Result<Context, Error>
  {
    if !AllKnown(p, ids) then Err(UnknownNode(FirstUnknown(p, ids)))
    else if mode.FireForget? then Ok(ctx)
    else
      var rs := BranchResults(w, p, ids, ctx);
      if !AllSome(rs) then Err(BranchFailed)
      else if !joins then Ok(ctx)
      else if !ClashFree(Values(rs)) then Err(MergeFailed)
      else Ok(MergedContext(ctx, Values(rs)))
  }

  function FirstUnknown(p: Program, ids: seq<string>): string {
    if ids == [] then "" else if ids[0] !in p.table then ids[0] else FirstUnknown(p, ids[1..])
  }

  predicate JoinFollows(code: seq<Instr>, ip: nat) {
    ip + 1 < |code| && code[ip + 1].Join?
  }

  function Advance(s: State): State {
    s.(ip := s.ip + 1)
  }

  function Logged(s: State, event: Event): State {
    s.(trace := s.trace + [event])
  }

  /** CALL: a returned context replaces the current one; a `Send` patches it and sets the pending route. */
  function Called(nid: string, result: StageResult, s: State): StepResult {
    match result
    case Raised => Fault(StageRaised(nid))
    case Returned(ctx) => Next(Advance(s.(ctx := ctx)))
    case Sent(route, patch) => Next(Advance(s.(ctx := Updated(s.ctx, patch), pending := Some(Pending(nid, route)))))
  }

  ghost function Step(w: World, p: Program, durable: bool, s: State): StepResult
    requires s.ip < |p.code| && Forward(p.code)
  {
    match p.code[s.ip]
    case EmitPipelineStart => Next(Advance(Logged(s, PipelineStarted)))
    case EmitPipelineEnd => Next(Advance(Logged(s, PipelineEnded)))
    case EmitStepStart(nid) =>
      Next(Advance(Logged(s, StepStarted(nid)).(timers := OpenTimer(s.timers, nid))))
    case EmitStepEnd(nid) =>
      Next(Advance(Logged(s, StepEnded(nid)).(timers := CloseTimer(s.timers, nid))))
    case EmitBranch(ids) => Next(Advance(Logged(s, Branched(ids))))
    case Checkpoint(_) =>
      Next(Advance(if durable then s.(slot := Some(Record(p.version, s.ip, Snapshot(s.ctx)))) else s))
    case ValidateInput(nid) =>
      if Validates(w, p.inputs, nid, s.ctx.data) then Next(Advance(s)) else Fault(InputInvalid(nid))
    case ValidateOutput(nid) =>
      if Validates(w, p.outputs, nid, s.ctx.data) then Next(Advance(s)) else Fault(OutputInvalid(nid))
    case Call(nid) =>
      if nid !in p.table then Fault(UnknownNode(nid)) else Called(nid, w.call(nid, p.table[nid], s.ctx), s)
    case Fork(ids, mode) =>
      var joins := mode.Parallel? && JoinFollows(p.code, s.ip);
      var r := Forked(w, p, ids, mode, joins, s.ctx);
      if r.Err? then Fault(r.error)
      else Next(s.(ctx := r.value, ip := if joins then s.ip + 2 else s.ip + 1))
    case Join => Next(Advance(s))
    case Route(m) =>
      if s.pending.None? then Fault(RouteWithoutSend)
      else if s.pending.value.route !in m then Fault(UnknownRoute(s.pending.value.route))
      else
        assert ForwardAt(p.code, s.ip);
        Next(Logged(s, Routed(s.pending.value.step, s.pending.value.route))
             .(ip := m[s.pending.value.route], pending := None))
    case Jump(target) =>
      assert ForwardAt(p.code, s.ip);
      Next(s.(ip := target))
  }

  /** Every step moves strictly forward, at most one past the end. */
  lemma StepForward(w: World, p: Program, durable: bool, s: State)
    requires s.ip < |p.code| && Forward(p.code)
    ensures Step(w, p, durable, s).Next? ==> s.ip < Step(w, p, durable, s).s.ip <= |p.code|
  {
    assert ForwardAt(p.code, s.ip);
  }

  /** The state in which a fault is reported: ROUTE announces the route before looking it up. */
  function AtFault(p: Program, s: State): State
    requires s.ip < |p.code|
  {
    if p.code[s.ip].Route? && s.pending.Some? then
      Logged(s, Routed(s.pending.value.step, s.pending.value.route))
    else s
  }

  /** The loop. It ends because every step moves forward: within `|code| - ip` instructions. */
  ghost function Exec(w: World, p: Program, durable: bool, s: State): RunResult
    requires Forward(p.code)
    decreases |p.code| - s.ip
  {
    if s.ip >= |p.code| then Completed(s)
    else
      match Step(w, p, durable, s)
      case Fault(e) => Failed(AtFault(p, s), e)
      case Next(s') =>
        StepForward(w, p, durable, s);
        Exec(w, p, durable, s')
  }

  /** `_current_step`. */
  function CurrentStep(code: seq<Instr>, ip: nat): string {
    if ip >= |code| then NO_STEP
    else
      match code[ip]
      case EmitStepStart(nid) => nid
      case EmitStepEnd(nid) => nid
      case Checkpoint(nid) => nid
      case ValidateInput(nid) => nid
      case Call(nid) => nid
      case ValidateOutput(nid) => nid
      case _ => NO_STEP
  }

  function Ends(timers: seq<string>): seq<Event> {
    if timers == [] then [] else [StepEnded(timers[0])] + Ends(timers[1..])
  }

  /** What a run returns or raises, with the callbacks it made; on error the open spans are closed first. */
  function Observed(p: Program, r: RunResult): Outcome {
    match r
    case Completed(s) => Success(s.ctx, s.trace)
    case Failed(s, e) => Failure(e, s.trace + Ends(s.timers) + [Errored(CurrentStep(p.code, s.ip))])
  }

  /** The run id's store entry afterwards: deleted on success, kept on failure. */
  function Leftover(durable: bool, r: RunResult): Option<Record> {
    if r.Completed? && durable then None else r.s.slot
  }

  function Fresh(ctx: Context): State {
    State(0, ctx, None, [], [], None)
  }

  /** Where `resume` starts from a stored checkpoint. */
  function Resumed(record: Record, name: string): State {
    State(record.ip, FromSnapshot(record.data, name), None, [], [], Some(record))
  }
}
