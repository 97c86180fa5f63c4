/** What durable requests reply, told from the source: every way a run starts, is refused, resumes or replays. */
module RequestMeanings {
  import opened Primitives
  import opened Contexts
  import opened Bytecode
  import opened Lowering
  import opened Runs
  import opened TreeSemantics
  import opened Vm
  import Resume
  import opened Replay
  import opened Requests

  /**
   * The reply is what the walk finishes with. Success leaves no entry; failure leaves a record of this program
   * from which the run may be resumed.
   */
  ghost predicate Replies(p: Program, walk: Outcome, reply: Reply, left: Option<Record>) {
    match walk
    case Success(ctx, _) => reply == Ok(ctx) && left == None
    case Failure(e, _) => reply == Err(Faulted(e)) && left.Some? && GoodRecord(p, left.value)
  }

  ghost predicate GoodRecord(p: Program, record: Record) {
    record.version == p.version && Resume.Resumable(p.code, record.ip)
  }

  lemma {:induction false} SlotStaysGood(w: World, p: Program, s: State)
    requires Forward(p.code) && s.slot.Some? && GoodRecord(p, s.slot.value)
    ensures var r := Exec(w, p, true, s); r.s.slot.Some? && GoodRecord(p, r.s.slot.value)
    decreases |p.code| - s.ip
  {
    if s.ip < |p.code| {
      match Step(w, p, true, s)
      case Fault(_) =>
      case Next(s') =>
        StepForward(w, p, true, s);
        SlotStaysGood(w, p, s');
    }
  }

  /** The loop, from a good record on. */
  lemma LoopReplies(w: World, p: Program, s: State, walk: Outcome)
    requires Forward(p.code) && s.slot.Some? && GoodRecord(p, s.slot.value)
    requires Observed(p, Exec(w, p, true, s)) == walk
    ensures Replies(p, walk, Ending(Exec(w, p, true, s)).0, Ending(Exec(w, p, true, s)).1)
  {
    SlotStaysGood(w, p, s);
  }

  /** The walk over the nodes `k` from a stored snapshot: nothing written, nothing pending. */
  ghost function WalkFrom(w: World, k: seq<RNode>, data: Data, name: string): Outcome {
    Finished(Run(w, k, Flow(Ctx(data, {}, name), None, [])))
  }

  /**
   * A replay from a main-line step replies as the walk of that step and its source continuation does, from the
   * data of the checkpoint it found, whatever version or position that checkpoint had.
   */
  lemma ReplayFromStepMeans(w: World, rs: seq<RNode>, t: Table, step: string, record: Record)
    returns (ip: nat, k: seq<RNode>)
    requires AllBound(t, rs) && step in MainLine(rs)
    ensures 0 < ip < |Assemble(w, rs, t).code| && Assemble(w, rs, t).code[ip] == EmitStepStart(step)
    ensures forall i :: 0 <= i < ip ==> Assemble(w, rs, t).code[i] != EmitStepStart(step)
    ensures Continuation(w, rs, 1, ip - 1) == Some(k) && k != [] && HeadId(k[0]) == Some(step)
    ensures var p := Assemble(w, rs, t);
            && Forward(p.code)
            && var (reply, left) := Solo(w, p, Request.Replay(Some(step)), Some(record));
               Replies(p, WalkFrom(w, k, record.data, "replay"), reply, left)
  {
    var p := Assemble(w, rs, t);
    ip, k := ReplayContinues(w, rs, t, step, record.data, "replay");
    LoopReplies(w, p, Resumed(Record(p.version, ip, record.data), "replay"), WalkFrom(w, k, record.data, "replay"));
  }

  /** Under which name a request goes on from a record; None if it does not, or only after rewriting it. */
  function ResumesAs(request: Request): Option<string> {
    match request
    case Invoke(ctx, resume) => if resume then Some(ctx.name) else None
    case Replay(fromStep) => if fromStep.None? then Some("replay") else None
  }

  /**
   * An invoke that resumes, and a replay without a step, reply as the walk from the record's position does: from
   * the stage whose CHECKPOINT or step_start it points at, through all that follows that stage in the source.
   */
  lemma ResumingMeans(w: World, rs: seq<RNode>, t: Table, request: Request, record: Record)
    returns (at: nat, k: seq<RNode>)
    requires AllBound(t, rs) && ResumesAs(request).Some? && GoodRecord(Assemble(w, rs, t), record)
    ensures at < |Assemble(w, rs, t).code| && Assemble(w, rs, t).code[at].Checkpoint?
    ensures record.ip == at || (record.ip == at + 1 && Assemble(w, rs, t).code[record.ip].EmitStepStart?)
    ensures Continuation(w, rs, 1, at) == Some(k) && k != [] && HeadId(k[0]) == Some(Assemble(w, rs, t).code[at].nid)
    ensures var p := Assemble(w, rs, t);
            && Forward(p.code)
            && var (reply, left) := Solo(w, p, request, Some(record));
               Replies(p, WalkFrom(w, k, record.data, ResumesAs(request).value), reply, left)
  {
    var p := Assemble(w, rs, t);
    var name := ResumesAs(request).value;
    AssembledParts(w, rs, t);
    if p.code[record.ip].Checkpoint? {
      at := record.ip;
      k := ResumeContinues(w, rs, t, record, name);
    } else {
      at := record.ip - 1;
      k := StepStartContinues(w, rs, t, record, name);
    }
    LoopReplies(w, p, Resumed(record, name), WalkFrom(w, k, record.data, name));
  }

  /** Resuming at the step_start that a replay from a step left. */
  lemma StepStartContinues(w: World, rs: seq<RNode>, t: Table, record: Record, name: string) returns (k: seq<RNode>)
    requires AllBound(t, rs)
    requires record.ip < |Assemble(w, rs, t).code| && Assemble(w, rs, t).code[record.ip].EmitStepStart?
    ensures var p := Assemble(w, rs, t);
            && record.ip > 0 && p.code[record.ip - 1] == Checkpoint(p.code[record.ip].nid)
            && Continuation(w, rs, 1, record.ip - 1) == Some(k) && k != []
            && HeadId(k[0]) == Some(p.code[record.ip].nid)
            && Forward(p.code)
            && Observed(p, Exec(w, p, true, Resumed(record, name))) == WalkFrom(w, k, record.data, name)
  {
    var p := Assemble(w, rs, t);
    AssembledParts(w, rs, t);
    var s := Resumed(record, name);
    FromStepStart(w, p, s);
    k := CheckpointPosition(w, rs, t, record.ip - 1);
    ContinuationExec(w, p, true, s.(ip := record.ip - 1), rs, 1, k);
  }

  /** Why a request that needs a record may not start; then the entry stays as it was. */
  ghost function Refusal(rs: seq<RNode>, p: Program, request: Request, entry: Option<Record>): Option<RunError> {
    if request.Invoke? && !request.resume then None
    else if entry.None? then Some(NoCheckpoint)
    else if request.Replay? && request.fromStep.Some? then
      if request.fromStep.value in MainLine(rs) then None else Some(NoSuchStep)
    else if entry.value.version != p.version then Some(VersionMismatch)
    else None
  }

  /** Refused exactly for want of a checkpoint, of a place of its step in the source, or of the right version. */
  lemma RefusedExactly(w: World, rs: seq<RNode>, t: Table, request: Request, entry: Option<Record>)
    ensures var p := Assemble(w, rs, t);
            && Forward(p.code)
            && var (reply, left) := Solo(w, p, request, entry);
               match Refusal(rs, p, request, entry)
               case Some(e) => reply == Err(e) && left == entry
               case None => reply.Ok? || reply.error.Faulted?
  {
    AssembledParts(w, rs, t);
    if request.Replay? && request.fromStep.Some? {
      FindStepExactly(w, rs, t, request.fromStep.value);
    }
  }
}
