/** What one durable run does with its run id's store entry when nothing else happens: the yardstick for all others. */
module Requests {
  import opened Primitives
  import opened Contexts
  import opened Bytecode
  import opened Runs
  import opened Vm
  import opened Replay

  datatype RunError =
    | RunIdInUse
    | StoreMissing
    | NoCheckpoint
    | VersionMismatch
    | NoSuchStep
    | Faulted(error: Error)

  type Reply = Result<Context, RunError>

  datatype Request = Invoke(ctx: Context, resume: bool) | Replay(fromStep: Option<string>)

  /** A run id's entry in the store, and the store with that entry put in place. */
  function Lookup(store: map<string, Record>, runId: string): Option<Record> {
    if runId in store then Some(store[runId]) else None
  }

  function Put(store: map<string, Record>, runId: string, entry: Option<Record>): map<string, Record> {
    match entry
    case None => store - {runId}
    case Some(record) => store[runId := record]
  }

  lemma PutLookup(store: map<string, Record>, runId: string, entry: Option<Record>, other: string)
    ensures Lookup(Put(store, runId, entry), other) == if other == runId then entry else Lookup(store, other)
    ensures Put(store, runId, Lookup(store, runId)) == store
  {
  }

  lemma PutTwice(store: map<string, Record>, runId: string, entry: Option<Record>, last: Option<Record>)
    ensures Put(Put(store, runId, entry), runId, last) == Put(store, runId, last)
  {
  }

  /** Where `Interpreter.run` starts, given the entry it finds. */
  function Started(p: Program, ctx: Context, resume: bool, entry: Option<Record>): Result<State, RunError> {
    if !resume then Ok(Fresh(ctx))
    else if entry.None? then Err(NoCheckpoint)
    else if entry.value.version != p.version then Err(VersionMismatch)
    else Ok(Resumed(entry.value, ctx.name))
  }

  /** What the caller gets, and the entry that stays. */
  function Ending(r: RunResult): (Reply, Option<Record>) {
    (match r
     case Completed(s) => Ok(s.ctx)
     case Failed(_, e) => Err(Faulted(e)),
     Leftover(true, r))
  }

  ghost function Interpreted(w: World, p: Program, ctx: Context, resume: bool, entry: Option<Record>)
    : (Reply, Option<Record>)
    requires Forward(p.code)
  {
    match Started(p, ctx, resume, entry)
    case Err(e) => (Err(e), entry)
    case Ok(s) => Ending(Exec(w, p, true, s))
  }

  /** The checkpoint a replay from a step writes before it resumes. */
  function Rewritten(p: Program, record: Record, ip: nat): Record {
    Record(p.version, ip, record.data)
  }

  /** A durable request run alone: its reply and the entry it leaves. */
  ghost function Solo(w: World, p: Program, request: Request, entry: Option<Record>): (Reply, Option<Record>)
    requires Forward(p.code)
  {
    match request
    case Invoke(ctx, resume) => Interpreted(w, p, ctx, resume, entry)
    case Replay(fromStep) =>
      if entry.None? then (Err(NoCheckpoint), entry)
      else
        var ctx := FromSnapshot(entry.value.data, "replay");
        match fromStep
        case None => Interpreted(w, p, ctx, true, entry)
        case Some(step) =>
          match FindStep(p.code, step, 0)
          case None => (Err(NoSuchStep), entry)
          case Some(ip) => Interpreted(w, p, ctx, true, Some(Rewritten(p, entry.value, ip)))
  }

  /** The state in which a durable request enters the instruction loop, given the entry it found. */
  function StartOf(p: Program, request: Request, entry: Option<Record>): Result<State, RunError> {
    match request
    case Invoke(ctx, resume) => Started(p, ctx, resume, entry)
    case Replay(fromStep) =>
      if entry.None? then Err(NoCheckpoint)
      else
        match fromStep
        case None => Started(p, FromSnapshot(entry.value.data, "replay"), true, entry)
        case Some(step) =>
          match FindStep(p.code, step, 0)
          case None => Err(NoSuchStep)
          case Some(ip) => Ok(Resumed(Rewritten(p, entry.value, ip), "replay"))
  }

  ghost function FromStart(w: World, p: Program, start: Result<State, RunError>, entry: Option<Record>)
    : (Reply, Option<Record>)
    requires Forward(p.code)
  {
    match start
    case Err(e) => (Err(e), entry)
    case Ok(s) => Ending(Exec(w, p, true, s))
  }

  /** A request that cannot start changes nothing; one that can does what the loop does from its start. */
  lemma SoloFromStart(w: World, p: Program, request: Request, entry: Option<Record>)
    requires Forward(p.code)
    ensures Solo(w, p, request, entry) == FromStart(w, p, StartOf(p, request, entry), entry)
  {
  }
}
