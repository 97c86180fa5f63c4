/** The interpreter: the instruction loop over the shared store, and the scheduler it forks through. */
module Interpreters {
  import opened Primitives
  import opened Contexts
  import opened Bytecode
  import opened Runs
  import opened Vm
  import opened Requests
  import Stores

  /** `Scheduler.run_parallel` on the results of the gathered branches; None stands for a branch that raised. */
  method RunParallel(forks: seq<Context>, results: seq<Option<Context>>, mode: ForkMode)
    returns (r: Option<seq<Context>>)
    requires |forks| == |results|
    ensures mode.Parallel? ==> r == if AllSome(results) then Some(Values(results)) else None
    ensures mode.FireForget? ==>
              && r.Some? && |r.value| == |forks|
              && forall i :: 0 <= i < |forks| ==> r.value[i] == if results[i].Some? then results[i].value else forks[i]
  {
    if mode.Parallel? {
      return if AllSome(results) then Some(Values(results)) else None;
    }
    var out: seq<Context> := [];
    for i := 0 to |results|
      invariant |out| == i
      invariant forall k :: 0 <= k < i ==> out[k] == if results[k].Some? then results[k].value else forks[k]
    {
      out := out + [if results[i].None? then forks[i] else results[i].value];
    }
    r := Some(out);
  }

  lemma {:induction false} FirstUnknownAt(p: Program, ids: seq<string>, i: nat)
    requires i < |ids| && ids[i] !in p.table && forall k :: 0 <= k < i ==> ids[k] in p.table
    ensures FirstUnknown(p, ids) == ids[i]
    decreases i
  {
    if i > 0 {
      FirstUnknownAt(p, ids[1..], i - 1);
    }
  }

  class Interpreter {
    const w: World

    constructor (w: World)
      ensures this.w == w
    {
      this.w := w;
    }

    /** `_handle_fork`: run the branches from forks of the context; merge if a JOIN follows. */
    method HandleFork(p: Program, ids: seq<string>, mode: ForkMode, ip: nat, ctx: Context)
      returns (r: Result<(nat, Context), Error>)
      requires ip < |p.code|
      ensures var joins := mode.Parallel? && JoinFollows(p.code, ip);
              var forked := Forked(w, p, ids, mode, joins, ctx);
              r == if forked.Err? then Err(forked.error) else Ok((if joins then ip + 2 else ip + 1, forked.value))
    {
      var forks: seq<Context> := [];
      for i := 0 to |ids|
        invariant |forks| == i
        invariant forall k :: 0 <= k < i ==> ids[k] in p.table && forks[k] == Contexts.Fork(ctx, ids[k])
      {
        if ids[i] !in p.table {
          FirstUnknownAt(p, ids, i);
          return Err(UnknownNode(ids[i]));
        }
        forks := forks + [Contexts.Fork(ctx, ids[i])];
      }
      var results := BranchResults(w, p, ids, ctx);
      var outcome := RunParallel(forks, results, mode);
      if outcome.None? {
        return Err(BranchFailed);
      }
      if mode.Parallel? && JoinFollows(p.code, ip) {
        var merged := Contexts.Merge(ctx, outcome.value);
        return match merged
               case Merged(c) => Ok((ip + 2, c))
               case Conflict(_, _) => Err(MergeFailed);
      }
      r := Ok((ip + 1, ctx));
    }

    /** One turn of the loop; only a CHECKPOINT of a durable run touches the store, and only its own entry. */
    method Execute(p: Program, runId: string, store: Stores.InMemoryStore?, durable: bool, s: State)
      returns (r: StepResult)
      requires Forward(p.code) && s.ip < |p.code|
      requires durable ==> store != null && Lookup(store.data, runId) == s.slot
      modifies store
      ensures r == Step(w, p, durable, s)
      ensures store != null ==>
                store.data == if durable && r.Next? then Put(old(store.data), runId, r.s.slot) else old(store.data)
    {
      if store != null {
        PutLookup(store.data, runId, s.slot, runId);
      }
      match p.code[s.ip]
      case EmitPipelineStart => r := Next(Advance(Logged(s, PipelineStarted)));
      case EmitPipelineEnd => r := Next(Advance(Logged(s, PipelineEnded)));
      case EmitStepStart(nid) => r := Next(Advance(Logged(s, StepStarted(nid)).(timers := OpenTimer(s.timers, nid))));
      case EmitStepEnd(nid) => r := Next(Advance(Logged(s, StepEnded(nid)).(timers := CloseTimer(s.timers, nid))));
      case EmitBranch(ids) => r := Next(Advance(Logged(s, Branched(ids))));
      case Checkpoint(_) =>
        if durable {
          var record := Record(p.version, s.ip, Snapshot(s.ctx));
          store.Save(runId, record);
          r := Next(Advance(s.(slot := Some(record))));
        } else {
          r := Next(Advance(s));
        }
      case ValidateInput(nid) =>
        r := if Validates(w, p.inputs, nid, s.ctx.data) then Next(Advance(s)) else Fault(InputInvalid(nid));
      case ValidateOutput(nid) =>
        r := if Validates(w, p.outputs, nid, s.ctx.data) then Next(Advance(s)) else Fault(OutputInvalid(nid));
      case Call(nid) =>
        if nid !in p.table {
          r := Fault(UnknownNode(nid));
        } else {
          var result := w.call(nid, p.table[nid], s.ctx);
          match result
          case Raised => r := Fault(StageRaised(nid));
          case Returned(ctx) => r := Next(Advance(s.(ctx := ctx)));
          case Sent(route, patch) =>
            var patched := Contexts.Update(s.ctx, patch);
            r := Next(Advance(s.(ctx := patched, pending := Some(Pending(nid, route)))));
        }
      case Fork(ids, mode) =>
        var forked := HandleFork(p, ids, mode, s.ip, s.ctx);
        r := match forked
             case Err(e) => Fault(e)
             case Ok((ip, ctx)) => Next(s.(ip := ip, ctx := ctx));
      case Join => r := Next(Advance(s));
      case Route(routeMap) =>
        assert ForwardAt(p.code, s.ip);
        if s.pending.None? {
          r := Fault(RouteWithoutSend);
        } else if s.pending.value.route !in routeMap {
          r := Fault(UnknownRoute(s.pending.value.route));
        } else {
          r := Next(Logged(s, Routed(s.pending.value.step, s.pending.value.route))
                    .(ip := routeMap[s.pending.value.route], pending := None));
        }
      case Jump(target) =>
        assert ForwardAt(p.code, s.ip);
        r := Next(s.(ip := target));
    }

    /** The error path: close every open span, then report the error. */
    method ReportError(p: Program, s: State) returns (trace: seq<Event>)
      ensures trace == s.trace + Ends(s.timers) + [Errored(CurrentStep(p.code, s.ip))]
    {
      trace := s.trace;
      for i := 0 to |s.timers|
        invariant trace + Ends(s.timers[i..]) == s.trace + Ends(s.timers)
      {
        assert s.timers[i..][0] == s.timers[i] && s.timers[i..][1..] == s.timers[i + 1..];
        AppendAssoc(trace, [StepEnded(s.timers[i])], Ends(s.timers[i + 1..]));
        trace := trace + [StepEnded(s.timers[i])];
      }
      assert trace + [] == trace;
      trace := trace + [Errored(CurrentStep(p.code, s.ip))];
    }

    /** Where the run starts: a durable fresh run first deletes what is stored under its run id. */
    method Start(p: Program, ctx: Context, runId: string, store: Stores.InMemoryStore?, durable: bool, resume: bool)
      returns (r: Result<State, RunError>)
      modifies store
      ensures resume && store == null ==> r == Err(StoreMissing)
      ensures resume && store != null ==>
                r == Started(p, ctx, true, Lookup(old(store.data), runId)) && store.data == old(store.data)
      ensures !resume ==> r == Ok(Fresh(ctx))
      ensures !resume && store != null ==>
                store.data == if durable then Put(old(store.data), runId, None) else old(store.data)
    {
      if resume {
        if store == null {
          return Err(StoreMissing);
        }
        var existing := store.Load(runId);
        if existing.None? {
          return Err(NoCheckpoint);
        }
        if existing.value.version != p.version {
          return Err(VersionMismatch);
        }
        return Ok(Resumed(existing.value, ctx.name));
      }
      if durable && store != null {
        store.Delete(runId);
      }
      r := Ok(Fresh(ctx));
    }

    /** The loop, from where the run starts: the result of the run, its checkpoints in the store. */
    method Loop(p: Program, start: State, runId: string, store: Stores.InMemoryStore?, durable: bool)
      returns (r: RunResult)
      requires Forward(p.code)
      requires durable ==> store != null && Lookup(store.data, runId) == start.slot
      modifies store
      ensures r == Exec(w, p, durable, start)
      ensures store != null ==> store.data == Kept(durable, old(store.data), runId, r.s.slot)
    {
      var s := start;
      if store != null {
        PutLookup(store.data, runId, start.slot, runId);
      }
      while s.ip < |p.code|
        invariant Exec(w, p, durable, s) == Exec(w, p, durable, start)
        invariant store != null ==> store.data == Kept(durable, old(store.data), runId, s.slot)
        decreases |p.code| - s.ip
      {
        if store != null {
          KeptTurn(durable, old(store.data), runId, s.slot);
        }
        StepForward(w, p, durable, s);
        var turn := Execute(p, runId, store, durable, s);
        if turn.Fault? {
          return Failed(AtFault(p, s), turn.error);
        }
        s := turn.s;
      }
      r := Completed(s);
    }

    /**
     * `Interpreter.run`. A durable run replies and leaves its store entry as `Interpreted` says; it
     * touches no other entry, and reports what `Observed` says of the loop.
     */
    method Run(p: Program, ctx: Context, runId: string, store: Stores.InMemoryStore?, durable: bool, resume: bool)
      returns (reply: Reply, trace: seq<Event>)
      requires Forward(p.code)
      modifies store
      ensures resume && store == null ==> reply == Err(StoreMissing)
      ensures store != null && durable ==>
                var (solo, entry) := Interpreted(w, p, ctx, resume, Lookup(old(store.data), runId));
                reply == solo && store.data == Put(old(store.data), runId, entry)
      ensures store != null && !durable ==> store.data == old(store.data)
      ensures !resume || store != null ==>
                var start := Started(p, ctx, resume, if store == null then None else Lookup(old(store.data), runId));
                match start
                case Err(e) => reply == Err(e) && trace == []
                case Ok(s) => Replied(p, Exec(w, p, store != null && durable, s), reply, trace)
    {
      if store != null {
        PutLookup(store.data, runId, None, runId);
      }
      var started := Start(p, ctx, runId, store, durable, resume);
      if started.Err? {
        return Err(started.error), [];
      }
      var d := store != null && durable;
      ghost var before := if store == null then map[] else store.data;
      var r := Loop(p, started.value, runId, store, d);
      if d {
        PutTwice(old(store.data), runId, Lookup(before, runId), r.s.slot);
        PutTwice(old(store.data), runId, r.s.slot, None);
      }
      match r {
        case Completed(s) =>
          if d {
            store.Delete(runId);
          }
          reply, trace := Ok(s.ctx), s.trace;
        case Failed(s, e) =>
          trace := ReportError(p, s);
          reply := Err(Faulted(e));
      }
    }
  }

  /** The store of a run that has come to hold `slot`: a run that is not durable leaves it alone. */
  function Kept(durable: bool, store: map<string, Record>, runId: string, slot: Option<Record>): map<string, Record> {
    if durable then Put(store, runId, slot) else store
  }

  lemma KeptTurn(durable: bool, store: map<string, Record>, runId: string, slot: Option<Record>)
    ensures durable ==> Lookup(Kept(durable, store, runId, slot), runId) == slot
    ensures forall last :: durable ==> Put(Kept(durable, store, runId, slot), runId, last) == Put(store, runId, last)
  {
    PutLookup(store, runId, slot, runId);
    forall last
      ensures Put(Put(store, runId, slot), runId, last) == Put(store, runId, last)
    {
      PutTwice(store, runId, slot, last);
    }
  }

  ghost predicate Replied(p: Program, r: RunResult, reply: Reply, trace: seq<Event>) {
    && reply == Ending(r).0
    && trace == Observed(p, r).trace
  }
}
