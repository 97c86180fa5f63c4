# A verified model of fluxio

fluxio compiles a list of async stages, `Parallel` blocks and routing dicts into flat bytecode and
runs it on a small VM with checkpoints. This project models the compiler, the VM, contexts with
fork and merge, durable runs over a shared checkpoint store, and the three concurrent step machines
around them (circuit breaker, rate limiter, stream hand-off), and proves what each of them keeps.

`dafny verify dfyconfig.toml` checks everything.

## How it is laid out

| file | part of fluxio |
|---|---|
| `Primitives.dfy`, `Contexts.dfy` | keys and values; `Context` with `update`, `fork` and `merge` |
| `Bytecode.dfy`, `Naming.dfy`, `Folding.dfy`, `Lowering.dfy`, `Compiler.dfy` | the compiler: node ids, auto-parallel folding, the code a pipeline becomes, and the appending, back-patching compiler that builds it |
| `SourceForm.dfy`, `FoldedSource.dfy`, `CompileErrors.dfy` | what compiling makes of a source list, what folding makes of it, and what a compilation error says of it, all told from the list itself |
| `Runs.dfy`, `TreeSemantics.dfy` | the reference meaning of a pipeline: a walk over its nodes, without instructions |
| `Vm.dfy`, `Forks.dfy`, `ControlFlow.dfy`, `Correctness.dfy`, `Spans.dfy`, `BranchSpans.dfy` | the VM as a step function; what FORK and JOIN do, by ids and patches; structure of compiled code; compiler correctness; span balance on the main line and in the branches of a FORK |
| `AutoParallel.dfy`, `FoldEquivalence.dfy` | auto-parallel and sequential compilation are equivalent |
| `Resume.dfy`, `Replay.dfy`, `CrashSafety.dfy` | checkpoints, crash and resume, replay from a step |
| `Requests.dfy`, `RequestMeanings.dfy`, `Stores.dfy`, `Interpreters.dfy`, `Pipelines.dfy`, `DurableRuns.dfy`, `Cancellations.dfy` | store, scheduler, interpreter and pipeline as classes, many of their runs interleaved, and what cancelled ones leave |
| `Breakers.dfy`, `RateLimits.dfy`, `Streams.dfy`, `StreamOrder.dfy`, `StreamRuns.dfy` | circuit breaker, rate limiter, stream queues |

The compiler, the interpreter, the store, the pipeline, the breaker, the limiter and the stream
queues are classes whose methods update their fields in place, each proved against a function on
values; the main results are about those functions. The functions themselves are pinned from outside: by
what the source list says (`CompilesToItsSource`, `AutoCompilesTheFoldedSource`), by ids and patches
(`ForkMeans`), by the walk a request stands for (`ReplayFromStepMeans`, `ResumingMeans`), and by the history of
a schedule (`AdmissionExactly`, `OpeningExactly`, `AdmitsExactly`, `WaitExactly`, `ArrivalsExactly`).

## What is assumed of the world

A `World` holds what fluxio does not own: the attributes it reads off stage objects, what calling a
stage under a node id does (return a context, return a `Send`, or raise), what each schema accepts, and
the digest used as program version. A stage is a function of the context it is given. The theorems
that need more say so in their `requires`:

- `Honest` (folding), of stages that declare both sides: such a stage returns its input plus declared
  writes, and its behaviour and its schemas depend only on what it declares. Nothing is asked of others.
- `DataOnly` (resuming): what a stage does depends on the context's data, not on its written set or
  name. Resuming resets both.
- `OnlyRoutersSend` (resuming): no stage but a router returns `Send`.

- `FoldsCleanly` (folding): going through the list group by group, at top level and in every route body,
  no candidate behind a group meets a member with which a side is undeclared before it meets one it
  overlaps with. It is a condition on the declarations, not on what folding returns.

The last two are not decoration: the code does otherwise without them. For folding,
`FoldRaisesExactly` and `CompilesExactly` say exactly when, for every node list, and
`OneSidedNeighboursRaise` and `OneSidedPipelineLost` name an input; for resuming, `ResumeExactly` and `LeakBreaksResume` do.

## Where code and documentation differ

The model follows the code.

- `docs/en/guides/routing.md:70` says dicts can be nested. A dict in a route body is compiled as a
  stage and rejected; `NestedRoutingRejected` proves that no such pipeline compiles.
- `src/fluxio/compiler/compiler.py:298-303` says a stage that does not declare both sides is never
  folded. When a declared stage is tried against a group and one of the two does not declare both
  sides, the test can reach `&` with `None` and raise TypeError; it does exactly if no overlap comes
  before (`FoldRaisesExactly`). Without such a neighbour a one-sided stage raises nothing.
- `src/fluxio/runtime/middleware.py:200-202` says only the probe closes or re-opens the circuit. A
  call admitted before the circuit opened does both (`StragglerCloses`, `StragglerReopens`). The comment
  holds exactly while no call but a probe is in flight (`OnlyTheProbeDecidesExactly`). A probe that
  is dropped with nobody else in flight leaves the circuit open for good (`AbandonedIsReached`,
  `NeverAgain`), and that is the only state without a way back (`AdmitsOtherwise`).
- A limit of `rps` calls a second holds only for a whole `rps`; in general it is the next whole number
  (`RateBound`, `BoundAttained`).
- A `Send` of a stage that is no router stays pending until some later ROUTE takes it, and is not
  part of a checkpoint.
- `replay(from_step=…)` does not find the branches of a Parallel block, and so not the stages that
  auto-parallelism folded: `FindStepExactly`.

## Model

| member | source | states |
|---|---|---|
| Contexts.Update | src/fluxio/context/context.py:70-80 | setting the patch's entries in any order gives the data overlaid with the patch, and adds exactly its keys to the written set |
| Contexts.UpdateIsSets | src/fluxio/context/context.py:63-80 | updating is setting each entry of the patch, in whatever order |
| Contexts.Merge | src/fluxio/context/context.py:86-108 | fails iff some key was written by two branches of different name; then lists exactly those keys, once each, and blames only clashing branches, at least two; else gives base overlaid with every branch's writes, and the union of written sets, whatever order the written sets are visited in |
| Contexts.OverlayValue | src/fluxio/context/context.py:92-101 | with distinct names and no clash, a merged key has the value its only writer gave it, else the base's |
| Contexts.MergeOrderIndependent | src/fluxio/context/context.py:86-108 | with distinct branch names, clashes and merged context are the same for every order of the branches |
| Naming.TakenBound | src/fluxio/compiler/compiler.py:349-351 | the `#N` search ends: no more suffixes can be taken than the table has keys |
| Naming.NodeIdNeverRebinds | src/fluxio/compiler/compiler.py:334-352 | an id is handed out only if it is free or already names this very function |
| Naming.NodeIdPrefers | src/fluxio/compiler/compiler.py:334-352 | the id is the function's name iff no other function has that; else its qualified name if it has one of its own that is free; else the first free `name#N`, written in decimal, from 2 up |
| Naming.DigitsWrite | src/fluxio/compiler/compiler.py:350-352 | the suffix is the decimal numeral of its number, without leading zeros |
| SourceForm.CompilesToItsSource | src/fluxio/compiler/compiler.py:34-249 | without auto-parallelism a list compiles to some nodes and table iff these mirror it node by node (functions, order, modes, route names, every item of every body, no dict in a body, no empty body), the ids are those the names give in source order, the table holds exactly these, and no block has branches under different ids that write a common key |
| FoldedSource.AutoCompilesTheFoldedSource | src/fluxio/compiler/compiler.py:44 | auto-parallel compilation is sequential compilation of the list in which every maximal run is written as a Parallel block, at top level and in route bodies: same nodes, ids, table and errors |
| CompileErrors.ErrorsAreReal | src/fluxio/compiler/compiler.py:60-365 | every error of a sequential compilation names a defect that the source has: a dict without a stage before it, an empty route of that name, an object that is no stage or a dict in a route body, or two branches with a common declared write |
| Lowering.ResolveStable | src/fluxio/compiler/compiler.py:333-368 | the table only grows, no id is ever rebound, and in the finished table every id in the program names the function at its source position |
| Folding.FoldGroups | src/fluxio/compiler/compiler.py:251-294 | folding is an order-preserving partition: each new group has at least two neighbouring, declared, pairwise disjoint stages, no router among them |
| Folding.FoldIs | src/fluxio/compiler/compiler.py:251-315 | folding gives the list with exactly the maximal runs of declared pairwise disjoint lone stages gathered, each into one PARALLEL block, or raises the TypeError; an empty set counts as undeclared |
| Folding.FoldFlattens | src/fluxio/compiler/compiler.py:251-294 | some blocks of the output, each at least two declared pairwise disjoint stages, are the new ones: taking just these apart gives the input list back, the user's own Parallel blocks untouched |
| Folding.DictKeepsRouter | src/fluxio/compiler/compiler.py:260-266 | each dict keeps its immediate predecessor |
| Folding.FoldTotal | src/fluxio/compiler/compiler.py:296-315 | folding raises no TypeError if every stage declares both sides or neither |
| Folding.FoldRaisesExactly | src/fluxio/compiler/compiler.py:254-315 | for every node list, folding raises the TypeError iff some group, found by going from maximal run to maximal run of declared pairwise disjoint stages, is followed by a declared candidate that meets a member with an undeclared side between them before the first overlap; stated over the declarations alone |
| Folding.PairRaisesExactly | src/fluxio/compiler/compiler.py:304-314 | the same for a list of just two declared stages, with the three intersections spelt out |
| Folding.OneSidedNeighboursRaise | src/fluxio/compiler/compiler.py:311-313 | a concrete input that raises: two neighbours that declare reads only; one alone does not |
| Compilers.Compiler.CompileStage | src/fluxio/compiler/compiler.py:103-132 | emits exactly the stage's code behind what was there and leaves the table its naming leaves, or raises its error |
| Compilers.Compiler.CompileParallel | src/fluxio/compiler/compiler.py:208-249 | the same for a Parallel block, including the write-conflict check over branches of different id |
| Compilers.Compiler.CompileRouterBlock | src/fluxio/compiler/compiler.py:134-198 | placeholders, route bodies and patching together give the router's final code, no placeholder left |
| Compilers.Compiler.Patch | src/fluxio/compiler/compiler.py:192-198 | writes the targets into the ROUTE and the continuation into exactly the recorded jumps, and nothing else |
| Compilers.Compiler.AutoParallelize | src/fluxio/compiler/compiler.py:251-294 | the two nested loops compute the fold that the lemmas are about |
| Compilers.Compiler.Compile | src/fluxio/compiler/compiler.py:34-101 | returns the program of the resolved nodes, with table and schema dicts, or the error resolving them gives |
| ControlFlow.CompiledIsStructured | src/fluxio/compiler/compiler.py:154-198 | every jump and route target of compiled code is in range, strictly forward and between steps; each CHECKPOINT is followed by its step_start; steps do not nest |
| Forks.ForkMeans | src/fluxio/runtime/interpreter.py:244-299 | for branches that return their input plus a patch, raise or send: PARALLEL fails iff one is rejected by a schema, raises or sends; else conflicts iff branches under different ids patch a common key; else gives the base with all patches in branch order, their keys written; without JOIN, and for fire-and-forget, the context stays |
| Vm.TimersAreKeys | src/fluxio/runtime/interpreter.py:178-187 | the timers are the keys of a dict: starting a step keeps or adds its key, ending it removes it, the others stay |
| Correctness.RouteEntry | src/fluxio/compiler/compiler.py:158-198 | each route name maps to the first instruction of its own body, which ends in a jump to the continuation; a name is in the map iff some route has it |
| Correctness.StageExec | src/fluxio/runtime/interpreter.py:111-124 | the instructions of a stage do what running the stage means, closing its span on every error |
| Correctness.BlockExec | src/fluxio/runtime/interpreter.py:244-299 | EMIT, FORK and JOIN of a block do what running and merging its branches means, or ignoring them for fire-and-forget |
| Correctness.RoutesExec | src/fluxio/runtime/interpreter.py:132-146 | ROUTE runs exactly the chosen body and then reaches the common continuation, or fails for want of a Send or of the route |
| Correctness.CompilerCorrect | src/fluxio/compiler/compiler.py:34-198 | for every pipeline that compiles and every initial context the VM run gives the outcome, context and callbacks of the tree walk |
| Resume.RunEnds | src/fluxio/runtime/interpreter.py:89-147 | from any ip a run completes or faults within `len - ip` instructions |
| Spans.SpansBalanced | src/fluxio/runtime/interpreter.py:148-160 | entered at ip 0, a CHECKPOINT or a step_start, at most one main-line span is open at any instant, each is closed exactly once, and before the error report |
| Spans.SpansStep | src/fluxio/runtime/interpreter.py:181-187 | after every instruction the only running timer is that of the step being executed |
| BranchSpans.BranchSpansPaired | src/fluxio/runtime/interpreter.py:260-286 | in every schedule, at every instant, a branch's span was opened at most once and closed at most as often |
| BranchSpans.EveryBranchCloses | src/fluxio/runtime/interpreter.py:261-286 | when nothing can go on any more each branch's span was opened and closed exactly once, succeeding or failing, and FORK raised iff a branch of a PARALLEL block fails |
| BranchSpans.NothingAfterGather | src/fluxio/runtime/scheduler.py:36-38 | when FORK goes on all its branches' spans are closed, and nothing of theirs is reported after |
| BranchSpans.ReportFollowsItsBranch | src/fluxio/runtime/interpreter.py:284-286 | whenever the error can be raised, a branch that fails has closed its span |
| BranchSpans.LateEndExactly | src/fluxio/runtime/scheduler.py:36-37 | once the error is raised, a branch's span can still be closed, after on_error, iff it was not closed by then |
| BranchSpans.SiblingOutlivesReport | src/fluxio/runtime/scheduler.py:36-37 | a concrete schedule in which a sibling's on_step_end follows on_error |
| AutoParallel.GroupSound | src/fluxio/context/context.py:82-108 | for any number of pairwise disjoint honest stages, running them in turn and forking all and merging stop together or give the same context, data and written set |
| AutoParallel.GroupNeverClashes | src/fluxio/context/context.py:92-103 | the merge of such a group never conflicts |
| FoldEquivalence.FoldingKeepsNames | src/fluxio/compiler/compiler.py:44 | folding changes neither node ids nor symbol table nor compile errors, and introduces no write conflict |
| FoldEquivalence.CompilesExactly | src/fluxio/compiler/compiler.py:306-314 | `auto_parallel=True` compiles iff `auto_parallel=False` does and by the declarations no candidate trips, at top level or in a route body; where one does, and only the sequential compilation succeeds, it raises the TypeError |
| FoldEquivalence.OneSidedPipelineLost | src/fluxio/compiler/compiler.py:44 | a concrete pipeline that compiles without auto-parallelism and raises the TypeError with it |
| FoldEquivalence.DeclaredFoldsCleanly | src/fluxio/compiler/compiler.py:298-314 | declaring both sides or neither on every stage, in route bodies too, is enough |
| FoldEquivalence.AutoParallelEquivalence | src/fluxio/compiler/compiler.py:251-315 | if the stages that declare both sides are honest and none trips, the auto-parallel program succeeds exactly when the sequential one does, with the same final context |
| FoldEquivalence.NestedRoutingRejected | src/fluxio/compiler/compiler.py:168-188 | a pipeline with a dict inside a route body never compiles |
| Resume.CheckpointInvariant | src/fluxio/runtime/interpreter.py:97-107 | at every reachable state of a fresh run the stored version is the program's, the stored ip is a CHECKPOINT at or before the current ip, nothing was pending there, and re-running from it passes through the current state up to the written set |
| Resume.CrashResume | src/fluxio/runtime/interpreter.py:66-81 | after any number of cuts and resumes the last attempt ends as one uninterrupted run does, whose callbacks are those up to the checkpoint followed by exactly those of the last attempt |
| Resume.CrashResumeFrom | src/fluxio/runtime/interpreter.py:66-81 | the same from any stored record of this version that points at a CHECKPOINT or at the step_start of a replay from a step |
| Resume.OnlyTheFirstCutLoses | src/fluxio/runtime/interpreter.py:70-71 | from any start, a resume finds no checkpoint iff the first attempt was cut before it stored or inherited one |
| Resume.ResumeExactly | src/fluxio/runtime/interpreter.py:119-124 | whatever stages send, resuming differs from going on exactly if a route was pending at the checkpoint and a ROUTE goes on to take it |
| Resume.CompiledIsDurable | src/fluxio/compiler/compiler.py:123-156 | if only routers send, compiled code routes every Send before the next CHECKPOINT |
| CrashSafety.PipelineCrashResume | src/fluxio/runtime/interpreter.py:54-163 | however often a durable run is cut and resumed, the attempt that ends gives the meaning of the source pipeline |
| CrashSafety.ReplayCrashResume | src/fluxio/api/pipeline.py:244-263 | however often a replay from a step is cut and resumed, before its next CHECKPOINT too, the attempt that ends finishes as the step's source continuation does |
| CrashSafety.LeakBreaksResume | src/fluxio/runtime/interpreter.py:97-124 | `[f, g, {"r": h}]` with a sending `f` succeeds uninterrupted and fails when cut behind the checkpoint of `g` and resumed |
| Replay.ResumeContinues | src/fluxio/runtime/interpreter.py:77-78 | resuming at any CHECKPOINT runs its stage next, then exactly the rest of its route body and the remaining top-level nodes |
| Replay.ReplayContinues | src/fluxio/api/pipeline.py:244-263 | the same from the step_start that a replay from a step resumes at |
| Replay.FindStepExactly | src/fluxio/api/pipeline.py:359-369 | a step is found iff it names a main-line stage; branches of Parallel blocks raise KeyError |
| Interpreters.RunParallel | src/fluxio/runtime/scheduler.py:28-45 | ordered results; PARALLEL fails if a branch does, fire-and-forget puts the branch's input in place of a failure |
| Interpreters.Interpreter.HandleFork | src/fluxio/runtime/interpreter.py:244-299 | forks every branch from the base, merges iff a JOIN follows, and steps over it |
| Interpreters.Interpreter.Execute | src/fluxio/runtime/interpreter.py:91-147 | one turn of the loop is one VM step, and only a durable CHECKPOINT touches the store, only its own entry |
| Interpreters.Interpreter.Run | src/fluxio/runtime/interpreter.py:54-163 | replies, reports and leaves the store entry as the run alone would; refuses to resume without store, checkpoint or matching version; touches no other entry |
| Pipelines.Pipeline.Invoke | src/fluxio/api/pipeline.py:77-106 | refuses a run id in use without touching the store; otherwise behaves as the solo run and releases the lock |
| Pipelines.Pipeline.FindStepIp | src/fluxio/api/pipeline.py:359-369 | finds the first step_start of that name |
| Pipelines.Pipeline.Replay | src/fluxio/api/pipeline.py:208-263 | the same for replay, with the rewritten checkpoint when a step is given, durable even if the pipeline is not |
| Pipelines.FreshInvokeMeans | src/fluxio/api/pipeline.py:77-106 | a fresh durable invoke replies with the meaning of the source pipeline, and success leaves no entry |
| RequestMeanings.ReplayFromStepMeans | src/fluxio/api/pipeline.py:239-263 | a replay from a main-line step replies, from any record, as the walk of that step and its source continuation does from the record's data; success leaves no entry, failure a resumable record of this version |
| RequestMeanings.ResumingMeans | src/fluxio/runtime/interpreter.py:66-81 | an invoke that resumes, and a replay without a step, reply as the walk from the record's position does, with the record's data, nothing written, under the caller's name or `replay` |
| RequestMeanings.RefusedExactly | src/fluxio/api/pipeline.py:239-263 | a request is refused, its entry untouched, iff it needs a checkpoint that is missing or of another version, or names no main-line step |
| DurableRuns.ArrivalsExactly | src/fluxio/api/pipeline.py:322-338 | in every schedule a call of a durable pipeline, or a replay, is refused iff another is in flight under its run id, and else holds the lock with the entry stored then; other invokes take no lock |
| DurableRuns.EveryCallIsPrepared | src/fluxio/api/pipeline.py:240-263 | in every schedule, when a call enters the interpreter the store holds what it found, or for a replay from a step a record of this version at that step with the data unchanged |
| DurableRuns.CancelFrees | src/fluxio/api/pipeline.py:334-338 | in every schedule cancelling a call in flight frees its run id and touches no entry and no other call |
| DurableRuns.OneFlightPerRunId | src/fluxio/api/pipeline.py:322-338 | in every schedule at most one call that takes the lock is in flight per run id, and the active set is exactly the run ids of those in flight |
| DurableRuns.OnlyTheHolderStores | src/fluxio/store/memory.py:17-27 | only the lock-holding call in flight under a run id changes that id's entry, also in a pipeline that is not durable |
| DurableRuns.NonInterference | src/fluxio/api/pipeline.py:239-263 | in every schedule, of a durable pipeline or of replays and invokes of one that is not, a finished call that held the lock replied, and left, what it would have if alone with the entry it found |
| DurableRuns.VisitsUndisturbed | src/fluxio/api/pipeline.py:324-326 | in every schedule an invoke of a pipeline that is not durable replies as the run alone from the entry it found, storing nothing |
| DurableRuns.VisitsReplyAsDurable | src/fluxio/runtime/interpreter.py:97-110 | storing nothing changes no reply: such an invoke replies as a durable one alone with that entry |
| DurableRuns.VisitReadsOnce | src/fluxio/runtime/interpreter.py:66-81 | the entry such an invoke finds is the stored one at the one moment it reads, whoever holds the lock |
| DurableRuns.EntryKept | src/fluxio/store/memory.py:17-27 | while no holder proceeds the entry stays, so a call finds what the one before it left |
| Cancellations.CancelThenResume | src/fluxio/api/pipeline.py:330-338 | in every schedule, whichever call is cancelled in whichever phase: once it runs, or an instruction has raised, resuming from its entry replies as it would have, and without an entry it had started fresh and calling again does; before that, or if it was refused a start, calling again does; once it completed its entry is gone |
| Cancellations.EntriesStayGood | src/fluxio/store/memory.py:17-27 | in every schedule all entries of this version keep pointing at a CHECKPOINT or a step_start |
| DurableRuns.EveryTurnCounts | src/fluxio/runtime/interpreter.py:90-147 | each turn brings a call nearer its reply and nobody else's turn sets it back |
| DurableRuns.EveryVisitTurnCounts | src/fluxio/runtime/interpreter.py:90-147 | so does each turn of an invoke that takes no lock |
| Breakers.CircuitBreaker.Enter | src/fluxio/runtime/middleware.py:199-222 | the locked entry computes the verdict and the new fields that the machine uses |
| Breakers.CircuitBreaker.ExitFail | src/fluxio/runtime/middleware.py:225-235 | a probe's failure re-opens; any other is counted and opens at the threshold |
| Breakers.BreakerSafe | src/fluxio/runtime/middleware.py:199-243 | in every schedule, dropped calls included: at most one probe in flight, half-open implies probing, closed iff no opening time, closed implies fewer failures than a threshold of at least 1; the counter is the non-probe failures since the last success |
| Breakers.AdmissionExactly | src/fluxio/runtime/middleware.py:204-218 | in every schedule an arriving call is admitted as an ordinary call iff no opening stands, as a probe iff one stands, the recovery time since the latest has passed and no probe is in flight or was dropped, and rejected otherwise |
| Breakers.OpeningExactly | src/fluxio/runtime/middleware.py:225-235 | in every schedule a failure opens the circuit, then and at that time, iff its call was admitted as a probe or the non-probe failures since the last success, this one included, reach the threshold; otherwise mode and opening time stay |
| Breakers.FieldsAreTheLog | src/fluxio/runtime/middleware.py:199-243 | in every schedule the circuit is closed iff no opening stands since the last success, its opening time is that of the latest opening, and it is probing iff a probe is in flight or was dropped |
| Breakers.DeadBranches | src/fluxio/runtime/middleware.py:205-218 | the assertion never fails and the branch for half-open without a probe is never taken |
| Breakers.QuietAfterOpening | src/fluxio/runtime/middleware.py:204-242 | no call is admitted within the recovery timeout of the latest opening unless a call in flight at that opening has since succeeded |
| Breakers.OnlyTheProbeDecidesExactly | src/fluxio/runtime/middleware.py:200-242 | from a safe state whose circuit is not closed: in every schedule, until it closes, whatever closes it or moves its opening time is a probe's return or counted failure, iff no call but a probe is in flight now |
| Breakers.StragglerDecides | src/fluxio/runtime/middleware.py:231-242 | any call in flight that is no probe closes the circuit by returning, and by failing moves its opening time iff it reaches the threshold |
| Breakers.StragglerReopens | src/fluxio/runtime/middleware.py:232-235 | a concrete schedule in which a call that is no probe re-opens an open circuit |
| Breakers.StragglerCloses | src/fluxio/runtime/middleware.py:237-242 | a concrete schedule in which a call that is no probe closes an open circuit |
| Breakers.DroppedProbeAbandons | src/fluxio/runtime/middleware.py:223-225 | a half-open circuit whose probe is dropped comes to the state without a way back iff the probe was the only call in flight |
| Breakers.AbandonedIsReached | src/fluxio/runtime/middleware.py:204-225 | a concrete schedule of four acts that reaches it |
| Breakers.NeverAgain | src/fluxio/runtime/middleware.py:223-225 | once a probe is dropped with nobody in flight, no schedule admits another call |
| Breakers.AdmitsOtherwise | src/fluxio/runtime/middleware.py:204-222 | from every other safe state some schedule admits a call |
| RateLimits.RateLimiter.TryAdmit | src/fluxio/runtime/middleware.py:256-266 | one locked turn prunes, admits or says how long to sleep, as the function the machine uses |
| RateLimits.AdmitsExactly | src/fluxio/runtime/middleware.py:260-264 | in every schedule a turn admits its caller iff fewer than `rps` admissions are less than a second old, and otherwise changes no admission |
| RateLimits.WaitExactly | src/fluxio/runtime/middleware.py:265-266 | in every schedule the wait is between 0.001 and 1 second; with nobody admitted meanwhile every turn from then on admits, and, if it is more than 0.001, no earlier one does |
| RateLimits.RateBound | src/fluxio/runtime/middleware.py:258-265 | in every schedule admission k + ceil(rps) comes at least a second after admission k, and no half-open unit interval holds more than ceil(rps) admissions |
| RateLimits.BoundAttained | src/fluxio/runtime/middleware.py:262-264 | some schedule admits ceil(rps) calls at one instant |
| RateLimits.WindowIsRecent | src/fluxio/runtime/middleware.py:260-263 | the window is always a sorted suffix of the admission history and misses no admission less than a second old |
| RateLimits.WaitIsEnough | src/fluxio/runtime/middleware.py:265-266 | a caller that sleeps as told is admitted at its next turn if nobody is admitted meanwhile |
| Streams.StreamSafety | src/fluxio/runtime/executor.py:48-68 | in every schedule, with any number of branches of a block streaming side by side, each queue holds at most 32 items; what a branch produced is what was taken followed by what is queued, and all its chunks are its result when it ends; what was yielded is, block by block, an interleaving of the branches' chunks, each branch's in order without gap |
| Streams.PutsWaitExactly | src/fluxio/runtime/executor.py:48-66 | in every schedule a producer, a consumer or the driver waits for room exactly while the queue holds 32 items, and a consumer or the caller for an item exactly while it is empty |
| Streams.RunsAheadOfItsCaller | src/fluxio/api/pipeline.py:125-158 | in every schedule the run waits for its caller only once 32 items are there to be read |
| Streams.QueueFills | src/fluxio/runtime/executor.py:49-56 | some schedule has any number of chunks up to 32 queued before the first is taken |
| Streams.ErrorEndsTheRun | src/fluxio/runtime/scheduler.py:36-37 | in every schedule, once a failing branch of a PARALLEL block has ended its error can end the run at once, and its siblings' steps stay possible |
| Streams.NoDeadlock | src/fluxio/api/pipeline.py:136-167 | until the caller has returned some coroutine can take a step, also while branches that outlive an error go on |
| Streams.StreamDelivers | src/fluxio/api/pipeline.py:125-167 | schedules are bounded in length; in one that cannot go on the caller has returned, with an error iff a branch of a PARALLEL block fails; it has every chunk of every branch if not, and otherwise all of the blocks before and all of the failing branch's before its error |
| StreamOrder.StreamsInOrder | src/fluxio/api/pipeline.py:116-117 | when stages stream one after the other the caller sees at every moment a prefix of all their chunks in order, and in the end all of them, a failing stage's before its error |
| StreamRuns.StreamRun.Run | src/fluxio/runtime/executor.py:41-74 | whichever coroutine runs each time, the caller is returned to with everything delivered as above |

## Left out

- CancelThenResume: a resumed or replayed call cancelled after it completed and before its caller has the reply loses that reply, since completing deletes the entry; the code has no await between the two with the in-memory store.
- `CacheMiddleware` and `RetryMiddleware`; the middleware chain is transparent in the VM.
- Cancellation inside `_run_stream` and `stream`, callbacks that raise there, and a consumer that stops reading: delivery is proved for the normal path and for failing generators.
- The interleaving of what the branches of a FORK do inside: they are functions of their forked context, so only the results, in branch order, enter the context. Which branch's exception surfaces is not modelled (`BranchFailed`); the spans of branches have a machine of their own and are not in the main line's trace.
- `on_checkpoint` and `on_step_stream` callbacks, durations and timestamps; other callbacks are trace events.
- Stage timeouts, the thread pool, the event loop, logging; a timeout is a stage that raises.
- `writes_map` and `reads_map` of the compiled program, which nothing reads at run time, and the texts and node ids of compilation errors.
- The version digest is an abstract function of the code.
- Pydantic validation is an abstract predicate on data; deep copies are values.
- `RedisStore`, `Context.get` and `__getitem__`, `run_step`, `diff`, `explain`, `StepHarness`, observability sinks: I/O, presentation or thin wrappers.
- Two `Pipeline` objects over one store: the run-id lock belongs to one object.
- `uuid` run ids: the run id is a parameter.
- RateLimits.RateBound: times are real numbers, so rounding of clock readings is not captured.
