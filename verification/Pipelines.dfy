/** `Pipeline`: the run-id lock and the fresh, resume and replay lifecycles around the interpreter. */
module Pipelines {
  import opened Primitives
  import opened Contexts
  import opened Bytecode
  import opened Vm
  import opened Replay
  import opened Requests
  import Stores
  import Interpreters
  import opened Folding
  import Lowering
  import opened TreeSemantics
  import ControlFlow
  import Correctness
  import Compilers

  class Pipeline {
    const compiled: Program
    const store: Stores.InMemoryStore?
    const durable: bool
    const interpreter: Interpreters.Interpreter
    var activeRuns: set<string>

    /** A durable pipeline without a store gets one of its own. */
    constructor (w: World, compiled: Program, store: Stores.InMemoryStore?, durable: bool)
      requires Forward(compiled.code)
      ensures Valid() && activeRuns == {} && this.compiled == compiled && this.durable == durable
      ensures interpreter.w == w
      ensures store != null ==> this.store == store
      ensures store == null ==> (durable <==> this.store != null) && (this.store != null ==> fresh(this.store))
    {
      this.compiled := compiled;
      this.durable := durable;
      activeRuns := {};
      interpreter := new Interpreters.Interpreter(w);
      if store == null && durable {
        var own := new Stores.InMemoryStore();
        this.store := own;
      } else {
        this.store := store;
      }
    }

    ghost predicate Valid() {
      Forward(compiled.code) && (durable ==> store != null)
    }

    /** `_acquire_run_forced`, entered; its exit is `Release`. */
    method AcquireForced(runId: string) returns (acquired: bool)
      modifies this
      ensures acquired <==> runId !in old(activeRuns)
      ensures activeRuns == old(activeRuns) + {runId}
    {
      if runId in activeRuns {
        return false;
      }
      activeRuns := activeRuns + {runId};
      acquired := true;
    }

    method Release(runId: string)
      modifies this
      ensures activeRuns == old(activeRuns) - {runId}
    {
      activeRuns := activeRuns - {runId};
    }

    method Invoke(ctx: Context, runId: string, resume: bool) returns (reply: Reply)
      requires Valid()
      modifies this, store
      ensures activeRuns == old(activeRuns)
      ensures durable && runId in activeRuns ==> reply == Err(RunIdInUse) && store.data == old(store.data)
      ensures durable && runId !in activeRuns ==>
                var (solo, entry) :=
                  Solo(interpreter.w, compiled, Request.Invoke(ctx, resume), Lookup(old(store.data), runId));
                reply == solo && store.data == Put(old(store.data), runId, entry)
      ensures !durable && resume && store == null ==> reply == Err(StoreMissing)
      ensures !durable && store != null ==> store.data == old(store.data)
      ensures !durable && (!resume || store != null) ==>
                match Started(compiled, ctx, resume, if store == null then None else Lookup(old(store.data), runId))
                case Err(e) => reply == Err(e)
                case Ok(s) => reply == Ending(Exec(interpreter.w, compiled, false, s)).0
    {
      if durable {
        var acquired := AcquireForced(runId);
        if !acquired {
          return Err(RunIdInUse);
        }
      }
      var trace;
      reply, trace := interpreter.Run(compiled, ctx, runId, store, durable, resume);
      if durable {
        Release(runId);
      }
    }

    /** `_find_step_ip`. */
    method FindStepIp(step: string) returns (ip: Option<nat>)
      ensures ip == FindStep(compiled.code, step, 0)
    {
      for i := 0 to |compiled.code|
        invariant FindStep(compiled.code, step, 0) == FindStep(compiled.code, step, i)
      {
        if compiled.code[i] == EmitStepStart(step) {
          return Some(i);
        }
      }
      ip := None;
    }

    /** A replay holds the lock around the rewrite and the run, and is durable whatever the pipeline is. */
    method Replay(runId: string, fromStep: Option<string>) returns (reply: Reply)
      requires Valid()
      modifies this, store
      ensures activeRuns == old(activeRuns)
      ensures store == null ==> reply == Err(StoreMissing)
      ensures store != null && runId in activeRuns ==> reply == Err(RunIdInUse) && store.data == old(store.data)
      ensures store != null && runId !in activeRuns ==>
                var (solo, entry) :=
                  Solo(interpreter.w, compiled, Request.Replay(fromStep), Lookup(old(store.data), runId));
                reply == solo && store.data == Put(old(store.data), runId, entry)
    {
      if store == null {
        return Err(StoreMissing);
      }
      var acquired := AcquireForced(runId);
      if !acquired {
        return Err(RunIdInUse);
      }
      reply := ReplayHeld(runId, fromStep);
      Release(runId);
    }

    method ReplayHeld(runId: string, fromStep: Option<string>) returns (reply: Reply)
      requires Valid() && store != null
      modifies store
      ensures var (solo, entry) :=
        Solo(interpreter.w, compiled, Request.Replay(fromStep), Lookup(old(store.data), runId));
              reply == solo && store.data == Put(old(store.data), runId, entry)
    {
      PutLookup(store.data, runId, None, runId);
      var checkpoint := store.Load(runId);
      if checkpoint.None? {
        return Err(NoCheckpoint);
      }
      var ctx := FromSnapshot(checkpoint.value.data, "replay");
      if fromStep.Some? {
        var ip := FindStepIp(fromStep.value);
        if ip.None? {
          return Err(NoSuchStep);
        }
        var rewritten := Rewritten(compiled, checkpoint.value, ip.value);
        PutLookup(store.data, runId, Some(rewritten), runId);
        store.Save(runId, rewritten);
      }
      var trace;
      reply, trace := interpreter.Run(compiled, ctx, runId, store, true, true);
    }
  }

  /** `Pipeline(nodes)`: compile once, then wrap. */
  method Build(w: World, nodes: seq<Node>, store: Stores.InMemoryStore?, durable: bool, autoParallel: bool)
    returns (r: Result<Pipeline, CompileError>)
    ensures var lowered := Lowering.Lower(w, autoParallel, nodes);
            if lowered.Err? then r == Err(lowered.error)
            else
              && r.Ok? && r.value.Valid() && r.value.durable == durable && r.value.interpreter.w == w
              && r.value.compiled == Lowering.Assemble(w, lowered.value.0, lowered.value.1)
  {
    var compiler := new Compilers.Compiler(w, autoParallel);
    var compiled := compiler.Compile(nodes);
    if compiled.Err? {
      return Err(compiled.error);
    }
    ghost var (rs, t) := Lowering.Lower(w, autoParallel, nodes).value;
    ControlFlow.CompiledIsStructured(w, rs, t);
    ControlFlow.StructuredForward(compiled.value.code);
    var pipeline := new Pipeline(w, compiled.value, store, durable);
    r := Ok(pipeline);
  }

  /** A fresh durable invoke replies with the meaning of the source pipeline; success leaves no entry. */
  lemma FreshInvokeMeans(w: World, auto: bool, nodes: seq<Node>, ctx: Context, entry: Option<Record>)
    requires Lowering.Lower(w, auto, nodes).Ok?
    ensures var (rs, t) := Lowering.Lower(w, auto, nodes).value;
            var p := Lowering.Assemble(w, rs, t);
            && Forward(p.code)
            && var (reply, left) := Solo(w, p, Request.Invoke(ctx, false), entry);
               match Meaning(w, rs, ctx)
               case Success(c, _) => reply == Ok(c) && left == None
               case Failure(e, _) => reply == Err(Faulted(e))
  {
    Correctness.CompilerCorrect(w, auto, nodes, true, ctx);
  }
}
