/** Many invoke and replay calls of one pipeline, interleaved at every store access and instruction. */
module DurableRuns {
  import opened Primitives
  import opened Contexts
  import opened Bytecode
  import opened Vm
  import opened Replay
  import opened Requests
  import Resume

  /** How far a call has got: awaits separate these phases, and other calls may run in between. */
  datatype Phase =
    | Holding                              // the lock is taken, nothing read yet
    | Rewriting(record: Record)            // replay from a step: about to save the rewritten checkpoint
    | Starting(ctx: Context, resume: bool) // about to enter the interpreter
    | Running(s: State)                    // in the loop; `s.slot` is this call's own idea of the entry
    | Ending(reply: Reply)                 // about to release the lock
    | Finished(reply: Reply)
    | Refused                              // the run id was in use
    | Abandoned                            // cancelled; the lock was released on the way out

  /** `before` and `after` record the entry found when the lock was taken and left when it was released. */
  datatype Flight = Flight(
    runId: string, request: Request, phase: Phase, before: Option<Record>, after: Option<Record>)

  /** An invoke of a pipeline that is not durable: it takes no lock, writes nothing, and may read one entry, `found`. */
  datatype Visit = Visit(runId: string, ctx: Context, resume: bool, phase: VisitPhase, found: Option<Record>)

  datatype VisitPhase = Arrived | Looping(s: State) | Replied(reply: Reply) | Gone

  /** The calls that hold, or held, the lock of their run id, and the visits that do without. */
  datatype Machine = Machine(
    durable: bool, store: map<string, Record>, active: set<string>, calls: map<nat, Flight>, visits: map<nat, Visit>)

  /** What may happen next: a call arrives, some call goes on to its next await, or is cancelled. */
  datatype Act = Enter(id: nat, runId: string, request: Request) | Proceed(id: nat) | Cancel(id: nat)

  predicate InFlight(c: Flight) {
    !c.phase.Finished? && !c.phase.Refused? && !c.phase.Abandoned?
  }

  /** One atomic stretch of a call, on its own entry; releasing the lock is the machine's part. */
  ghost function Stretch(w: World, p: Program, c: Flight, entry: Option<Record>): (Phase, Option<Record>)
    requires Forward(p.code) && InFlight(c)
  {
    match c.phase
    case Holding =>
      (match c.request
       case Invoke(ctx, resume) => (Starting(ctx, resume), entry)
       case Replay(fromStep) => (Loaded(p, fromStep, entry), entry))
    case Rewriting(record) => (Starting(FromSnapshot(record.data, "replay"), true), Some(record))
    case Starting(ctx, resume) =>
      (match Started(p, ctx, resume, entry)
       case Err(e) => (Ending(Err(e)), entry)
       case Ok(s) => (Running(s), if resume then entry else None))
    case Running(s) =>
      if s.ip >= |p.code| then (Ending(Ok(s.ctx)), None)
      else
        (match Step(w, p, true, s)
         case Fault(e) => (Ending(Err(Faulted(e))), entry)
         case Next(s') => (Running(s'), if p.code[s.ip].Checkpoint? then s'.slot else entry))
    case Ending(reply) => (Finished(reply), entry)
  }

  function Loaded(p: Program, fromStep: Option<string>, entry: Option<Record>): Phase {
    if entry.None? then Ending(Err(NoCheckpoint))
    else
      match fromStep
      case None => Starting(FromSnapshot(entry.value.data, "replay"), true)
      case Some(step) =>
        match FindStep(p.code, step, 0)
        case None => Ending(Err(NoSuchStep))
        case Some(ip) => Rewriting(Rewritten(p, entry.value, ip))
  }

  ghost function Proceeded(w: World, p: Program, m: Machine, id: nat): Machine
    requires Forward(p.code) && id in m.calls && InFlight(m.calls[id])
  {
    var c := m.calls[id];
    var (phase, entry) := Stretch(w, p, c, Lookup(m.store, c.runId));
    m.(
    store := Put(m.store, c.runId, entry),
    active := if phase.Finished? then m.active - {c.runId} else m.active,
    calls := m.calls[id := c.(phase := phase, after := entry)])
  }

  function Entered(m: Machine, id: nat, runId: string, request: Request): Machine {
    var entry := Lookup(m.store, runId);
    if runId in m.active then m.(calls := m.calls[id := Flight(runId, request, Refused, entry, entry)])
    else m.(active := m.active + {runId}, calls := m.calls[id := Flight(runId, request, Holding, entry, entry)])
  }

  function Cancelled(m: Machine, id: nat): Machine
    requires id in m.calls
  {
    var c := m.calls[id];
    m.(active := m.active - {c.runId}, calls := m.calls[id := c.(phase := Abandoned)])
  }

  predicate Visiting(v: Visit) {
    v.phase.Arrived? || v.phase.Looping?
  }

  /** One atomic stretch of a visit: reading the entry it resumes from, or one instruction. */
  ghost function VisitNext(w: World, p: Program, v: Visit, entry: Option<Record>): Visit
    requires Forward(p.code) && Visiting(v)
  {
    match v.phase
    case Arrived =>
      (match Started(p, v.ctx, v.resume, entry)
       case Err(e) => v.(phase := Replied(Err(e)), found := entry)
       case Ok(s) => v.(phase := Looping(s), found := entry))
    case Looping(s) =>
      if s.ip >= |p.code| then v.(phase := Replied(Ok(s.ctx)))
      else
        (match Step(w, p, false, s)
         case Fault(e) => v.(phase := Replied(Err(Faulted(e))))
         case Next(s') => v.(phase := Looping(s')))
  }

  function Visited(m: Machine, id: nat, runId: string, request: Request): Machine
    requires request.Invoke?
  {
    m.(visits := m.visits[id := Visit(runId, request.ctx, request.resume, Arrived, None)])
  }

  /** Acts that are not possible leave the machine as it is, so any sequence of acts is a schedule. */
  ghost function Next(w: World, p: Program, m: Machine, act: Act): Machine
    requires Forward(p.code)
  {
    match act
    case Enter(id, runId, request) =>
      if id in m.calls || id in m.visits then m
      else if m.durable || request.Replay? then Entered(m, id, runId, request)
      else Visited(m, id, runId, request)
    case Proceed(id) =>
      if id in m.calls && InFlight(m.calls[id]) then Proceeded(w, p, m, id)
      else if id in m.visits && Visiting(m.visits[id]) then
        m.(visits := m.visits[id := VisitNext(w, p, m.visits[id], Lookup(m.store, m.visits[id].runId))])
      else m
    case Cancel(id) =>
      if id in m.calls && InFlight(m.calls[id]) then Cancelled(m, id)
      else if id in m.visits && Visiting(m.visits[id]) then
        m.(visits := m.visits[id := m.visits[id].(phase := Gone)])
      else m
  }

  ghost function Play(w: World, p: Program, m: Machine, acts: seq<Act>): Machine
    requires Forward(p.code)
  {
    if acts == [] then m else Next(w, p, Play(w, p, m, Front(acts)), Last(acts))
  }

  // ----------------------------------------------------------------- invariants

  predicate StartsFresh(request: Request) {
    request.Invoke? && !request.resume
  }

  ghost predicate Reached(w: World, p: Program, start: State, s: State)
    requires Forward(p.code)
  {
    exists n: nat :: s == Resume.After(w, p, start, n)
  }

  lemma ReachedStart(w: World, p: Program, s: State)
    requires Forward(p.code)
    ensures Reached(w, p, s, s)
  {
    assert s == Resume.After(w, p, s, 0);
  }

  lemma ReachedStep(w: World, p: Program, start: State, s: State)
    requires Forward(p.code) && Reached(w, p, start, s) && s.ip < |p.code|
    ensures Step(w, p, true, s).Next? ==> Reached(w, p, start, Step(w, p, true, s).s)
  {
    var n: nat :| s == Resume.After(w, p, start, n);
    Resume.AfterAdd(w, p, start, n, 1);
    if Step(w, p, true, s).Next? {
      assert Resume.After(w, p, Step(w, p, true, s).s, 0) == Step(w, p, true, s).s;
      assert Resume.After(w, p, start, n + 1) == Step(w, p, true, s).s;
    }
  }

  /** Starting over from this entry is starting as from the entry that was found. */
  ghost predicate Restarts(p: Program, c: Flight, entry: Option<Record>) {
    StartOf(p, c.request, entry) == StartOf(p, c.request, c.before)
  }

  /** The loop was entered, and the entry is the one a state it has reached holds. */
  ghost predicate LeftBehind(w: World, p: Program, c: Flight, entry: Option<Record>)
    requires Forward(p.code)
  {
    var start := StartOf(p, c.request, c.before);
    start.Ok? && exists s :: Reached(w, p, start.value, s) && s.slot == entry
  }

  /** A call in flight is on its way to what it would reply, and leave, if it were alone. */
  ghost predicate OnTrack(w: World, p: Program, c: Flight, entry: Option<Record>)
    requires Forward(p.code)
  {
    var solo, start := Solo(w, p, c.request, c.before), StartOf(p, c.request, c.before);
    match c.phase
    case Holding => entry == c.before
    case Rewriting(record) =>
      && entry == c.before && RewrittenFor(p, c, record)
      && solo == Interpreted(w, p, FromSnapshot(record.data, "replay"), true, Some(record))
    case Starting(ctx, resume) =>
      && solo == Interpreted(w, p, ctx, resume, entry)
      && start == Started(p, ctx, resume, entry) && Restarts(p, c, entry)
    case Running(s) =>
      && s.slot == entry && solo == Requests.Ending(Exec(w, p, true, s))
      && start.Ok? && Reached(w, p, start.value, s)
    case Ending(reply) => solo == (reply, entry) && (Faulty(reply) ==> LeftBehind(w, p, c, entry))
    case Finished(reply) => solo == (reply, c.after)
    case Refused => true
    case Abandoned => true
  }

  /** The record is the one this replay from a step makes of the entry it found. */
  ghost predicate RewrittenFor(p: Program, c: Flight, record: Record) {
    && c.request.Replay? && c.request.fromStep.Some? && c.before.Some?
    && FindStep(p.code, c.request.fromStep.value, 0) == Some(record.ip)
    && record == Rewritten(p, c.before.value, record.ip)
  }

  /** An instruction raised: the call had entered the loop. */
  predicate Faulty(reply: Reply) {
    reply.Err? && reply.error.Faulted?
  }

  ghost predicate CallOk(w: World, p: Program, m: Machine, id: nat)
    requires Forward(p.code) && id in m.calls
  {
    var c := m.calls[id];
    OnTrack(w, p, c, Lookup(m.store, c.runId)) && (InFlight(c) ==> c.runId in m.active)
  }

  ghost predicate AllCallsOk(w: World, p: Program, m: Machine)
    requires Forward(p.code)
  {
    forall id {:trigger CallOk(w, p, m, id)} :: id in m.calls ==> CallOk(w, p, m, id)
  }

  ghost predicate Exclusive(m: Machine, i: nat, j: nat)
    requires i in m.calls && j in m.calls
  {
    i != j && InFlight(m.calls[i]) && InFlight(m.calls[j]) ==> m.calls[i].runId != m.calls[j].runId
  }

  ghost predicate HeldBySome(m: Machine, runId: string) {
    exists id :: id in m.calls && InFlight(m.calls[id]) && m.calls[id].runId == runId
  }

  /** What a visit replies: the run from the entry it found, storing nothing. */
  ghost function VisitReply(w: World, p: Program, v: Visit): Reply
    requires Forward(p.code)
  {
    match Started(p, v.ctx, v.resume, v.found)
    case Err(e) => Err(e)
    case Ok(s) => Requests.Ending(Exec(w, p, false, s)).0
  }

  ghost predicate VisitOk(w: World, p: Program, v: Visit)
    requires Forward(p.code)
  {
    match v.phase
    case Looping(s) => VisitReply(w, p, v) == Requests.Ending(Exec(w, p, false, s)).0
    case Replied(reply) => VisitReply(w, p, v) == reply
    case _ => true
  }

  /** No id is both a call's and a visit's, and the visits go their own way. */
  ghost predicate VisitsOk(w: World, p: Program, m: Machine)
    requires Forward(p.code)
  {
    m.calls.Keys * m.visits.Keys == {} && forall id :: id in m.visits ==> VisitOk(w, p, m.visits[id])
  }

  /**
   * At most one call per run id is in flight, the active set holds exactly the run ids in flight,
   * and every call is on the track of its solo run.
   */
  ghost predicate Inv(w: World, p: Program, m: Machine)
    requires Forward(p.code)
  {
    && AllCallsOk(w, p, m)
    && (forall i, j {:trigger Exclusive(m, i, j)} :: i in m.calls && j in m.calls ==> Exclusive(m, i, j))
    && (forall runId :: runId in m.active ==> HeldBySome(m, runId))
    && VisitsOk(w, p, m)
  }

  lemma StretchOnTrack(w: World, p: Program, c: Flight, entry: Option<Record>)
    requires Forward(p.code) && InFlight(c) && OnTrack(w, p, c, entry)
    ensures var (phase, entry') := Stretch(w, p, c, entry);
            OnTrack(w, p, c.(phase := phase, after := entry'), entry')
  {
    match c.phase
    case Running(s) => RunningOnTrack(w, p, c, s, entry);
    case Starting(ctx, resume) =>
      var started := Started(p, ctx, resume, entry);
      if started.Ok? {
        ReachedStart(w, p, started.value);
      }
    case _ =>
  }

  lemma RunningOnTrack(w: World, p: Program, c: Flight, s: State, entry: Option<Record>)
    requires Forward(p.code) && c.phase == Running(s) && OnTrack(w, p, c, entry)
    ensures var (phase, entry') := Stretch(w, p, c, entry);
            OnTrack(w, p, c.(phase := phase, after := entry'), entry')
  {
    if s.ip < |p.code| {
      OnlyCheckpointsStore(w, p, s);
      ReachedStep(w, p, StartOf(p, c.request, c.before).value, s);
      match Step(w, p, true, s)
      case Next(s') => StepForward(w, p, true, s);
      case Fault(e) => assert Exec(w, p, true, s) == Failed(AtFault(p, s), e);
    }
  }

  lemma OnlyCheckpointsStore(w: World, p: Program, s: State)
    requires Forward(p.code) && s.ip < |p.code|
    ensures !p.code[s.ip].Checkpoint? && Step(w, p, true, s).Next? ==> Step(w, p, true, s).s.slot == s.slot
  {
  }

  lemma ProceededCallOk(w: World, p: Program, m: Machine, id: nat, i: nat)
    requires Forward(p.code) && id in m.calls && InFlight(m.calls[id]) && i in m.calls
    requires CallOk(w, p, m, id) && CallOk(w, p, m, i) && Exclusive(m, i, id)
    ensures CallOk(w, p, Proceeded(w, p, m, id), i)
  {
    var c := m.calls[id];
    var entry := Lookup(m.store, c.runId);
    PutLookup(m.store, c.runId, Stretch(w, p, c, entry).1, m.calls[i].runId);
    if i == id {
      StretchOnTrack(w, p, c, entry);
    }
  }

  /** Changing one call's phase, and dropping its run id from the active set if it is over, keeps exclusion. */
  lemma LocksKept(m: Machine, m': Machine, id: nat)
    requires id in m.calls && InFlight(m.calls[id])
    requires m'.calls.Keys == m.calls.Keys && m'.calls[id].runId == m.calls[id].runId
    requires forall i :: i in m.calls && i != id ==> m'.calls[i] == m.calls[i]
    requires m'.active == if InFlight(m'.calls[id]) then m.active else m.active - {m.calls[id].runId}
    requires forall i, j {:trigger Exclusive(m, i, j)} :: i in m.calls && j in m.calls ==> Exclusive(m, i, j)
    requires forall runId :: runId in m.active ==> HeldBySome(m, runId)
    ensures forall i, j {:trigger Exclusive(m', i, j)} :: i in m'.calls && j in m'.calls ==> Exclusive(m', i, j)
    ensures forall runId :: runId in m'.active ==> HeldBySome(m', runId)
  {
    forall i, j | i in m'.calls && j in m'.calls
      ensures Exclusive(m', i, j)
    {
      assert Exclusive(m, i, j);
    }
    forall runId | runId in m'.active
      ensures HeldBySome(m', runId)
    {
      assert HeldBySome(m, runId);
      var k :| k in m.calls && InFlight(m.calls[k]) && m.calls[k].runId == runId;
      assert k in m'.calls && InFlight(m'.calls[k]) && m'.calls[k].runId == runId;
    }
  }

  lemma ProceededCallsOk(w: World, p: Program, m: Machine, id: nat)
    requires Forward(p.code) && AllCallsOk(w, p, m) && id in m.calls && InFlight(m.calls[id])
    requires forall i, j {:trigger Exclusive(m, i, j)} :: i in m.calls && j in m.calls ==> Exclusive(m, i, j)
    ensures AllCallsOk(w, p, Proceeded(w, p, m, id))
  {
    forall i | i in m.calls
      ensures CallOk(w, p, Proceeded(w, p, m, id), i)
    {
      assert Exclusive(m, i, id);
      ProceededCallOk(w, p, m, id, i);
    }
  }

  lemma ProceededKeeps(w: World, p: Program, m: Machine, id: nat)
    requires Forward(p.code) && Inv(w, p, m) && id in m.calls && InFlight(m.calls[id])
    ensures Inv(w, p, Proceeded(w, p, m, id))
  {
    ProceededCallsOk(w, p, m, id);
    LocksKept(m, Proceeded(w, p, m, id), id);
  }

  lemma CallStays(w: World, p: Program, m: Machine, m': Machine, i: nat)
    requires Forward(p.code) && i in m.calls && CallOk(w, p, m, i)
    requires i in m'.calls && m'.calls[i] == m.calls[i] && m'.store == m.store && m.active <= m'.active
    ensures CallOk(w, p, m', i)
  {
  }

  /** A call that has just arrived is on track: it holds the entry it found, or was refused. */
  lemma ArrivedOk(w: World, p: Program, m: Machine, id: nat, runId: string, request: Request)
    requires Forward(p.code)
    ensures CallOk(w, p, Entered(m, id, runId, request), id)
  {
    var m' := Entered(m, id, runId, request);
    var c := m'.calls[id];
    assert c.before == Lookup(m'.store, c.runId) && (c.phase.Refused? || c.phase.Holding?);
    assert OnTrack(w, p, c, c.before);
  }

  lemma HeldAreActive(w: World, p: Program, m: Machine, i: nat)
    requires Forward(p.code) && i in m.calls && CallOk(w, p, m, i)
    ensures InFlight(m.calls[i]) ==> m.calls[i].runId in m.active
  {
  }

  /** A call that gets the lock is the only one in flight under its run id. */
  lemma EnteredLocks(m: Machine, m': Machine, id: nat, c: Flight)
    requires id !in m.calls && m'.calls == m.calls[id := c]
    requires m'.active == if InFlight(c) then m.active + {c.runId} else m.active
    requires InFlight(c) ==> c.runId !in m.active
    requires forall i :: i in m.calls && InFlight(m.calls[i]) ==> m.calls[i].runId in m.active
    requires forall i, j {:trigger Exclusive(m, i, j)} :: i in m.calls && j in m.calls ==> Exclusive(m, i, j)
    requires forall r :: r in m.active ==> HeldBySome(m, r)
    ensures forall i, j {:trigger Exclusive(m', i, j)} :: i in m'.calls && j in m'.calls ==> Exclusive(m', i, j)
    ensures forall r :: r in m'.active ==> HeldBySome(m', r)
  {
    forall i, j | i in m'.calls && j in m'.calls
      ensures Exclusive(m', i, j)
    {
      assert i != id && j != id ==> Exclusive(m, i, j);
    }
    forall r | r in m'.active
      ensures HeldBySome(m', r)
    {
      if r in m.active {
        assert HeldBySome(m, r);
        var k :| k in m.calls && InFlight(m.calls[k]) && m.calls[k].runId == r;
        assert k in m'.calls && InFlight(m'.calls[k]) && m'.calls[k].runId == r;
      } else {
        assert id in m'.calls && InFlight(m'.calls[id]) && m'.calls[id].runId == r;
      }
    }
  }

  lemma EnteredCallsOk(w: World, p: Program, m: Machine, id: nat, runId: string, request: Request)
    requires Forward(p.code) && AllCallsOk(w, p, m) && id !in m.calls
    ensures AllCallsOk(w, p, Entered(m, id, runId, request))
  {
    var m' := Entered(m, id, runId, request);
    ArrivedOk(w, p, m, id, runId, request);
    forall i | i in m.calls
      ensures CallOk(w, p, m', i)
    {
      CallStays(w, p, m, m', i);
    }
  }

  lemma AllHeldAreActive(w: World, p: Program, m: Machine)
    requires Forward(p.code) && AllCallsOk(w, p, m)
    ensures forall i :: i in m.calls && InFlight(m.calls[i]) ==> m.calls[i].runId in m.active
  {
    forall i | i in m.calls && InFlight(m.calls[i])
      ensures m.calls[i].runId in m.active
    {
      HeldAreActive(w, p, m, i);
    }
  }

  lemma EnteredKeeps(w: World, p: Program, m: Machine, id: nat, runId: string, request: Request)
    requires Forward(p.code) && Inv(w, p, m) && id !in m.calls && id !in m.visits
    ensures Inv(w, p, Entered(m, id, runId, request))
  {
    hide OnTrack, HeldBySome, Exclusive;
    var m' := Entered(m, id, runId, request);
    EnteredCallsOk(w, p, m, id, runId, request);
    AllHeldAreActive(w, p, m);
    EnteredExcludes(m, id, runId, request);
    VisitsStay(w, p, m, m', id);
  }

  lemma EnteredExcludes(m: Machine, id: nat, runId: string, request: Request)
    requires id !in m.calls
    requires forall i :: i in m.calls && InFlight(m.calls[i]) ==> m.calls[i].runId in m.active
    requires forall i, j {:trigger Exclusive(m, i, j)} :: i in m.calls && j in m.calls ==> Exclusive(m, i, j)
    requires forall r :: r in m.active ==> HeldBySome(m, r)
    ensures var m' := Entered(m, id, runId, request);
            && (forall i, j {:trigger Exclusive(m', i, j)} :: i in m'.calls && j in m'.calls ==> Exclusive(m', i, j))
            && forall r :: r in m'.active ==> HeldBySome(m', r)
  {
    var m' := Entered(m, id, runId, request);
    EnteredLocks(m, m', id, m'.calls[id]);
  }

  lemma VisitsStay(w: World, p: Program, m: Machine, m': Machine, id: nat)
    requires Forward(p.code) && VisitsOk(w, p, m) && m'.visits == m.visits
    requires id !in m.visits && m'.calls.Keys == m.calls.Keys + {id}
    ensures VisitsOk(w, p, m')
  {
  }

  lemma CancelledKeeps(w: World, p: Program, m: Machine, id: nat)
    requires Forward(p.code) && Inv(w, p, m) && id in m.calls && InFlight(m.calls[id])
    ensures Inv(w, p, Cancelled(m, id))
  {
    var m' := Cancelled(m, id);
    forall i | i in m'.calls
      ensures CallOk(w, p, m', i)
    {
      assert CallOk(w, p, m, i) && Exclusive(m, i, id);
    }
    LocksKept(m, m', id);
  }

  lemma VisitKeeps(w: World, p: Program, v: Visit, entry: Option<Record>)
    requires Forward(p.code) && Visiting(v) && VisitOk(w, p, v)
    ensures VisitOk(w, p, VisitNext(w, p, v, entry))
  {
    if v.phase.Looping? {
      var s := v.phase.s;
      if s.ip < |p.code| {
        match Step(w, p, false, s)
        case Next(s') => StepForward(w, p, false, s);
        case Fault(e) => assert Exec(w, p, false, s) == Failed(AtFault(p, s), e);
      }
    }
  }

  /** What changes nothing but the visits keeps the rest. */
  lemma VisitsChanged(w: World, p: Program, m: Machine, m': Machine)
    requires Forward(p.code) && Inv(w, p, m) && m' == m.(visits := m'.visits) && VisitsOk(w, p, m')
    ensures Inv(w, p, m')
  {
    forall id | id in m'.calls
      ensures CallOk(w, p, m', id)
    {
      assert CallOk(w, p, m, id);
    }
    forall i, j | i in m'.calls && j in m'.calls
      ensures Exclusive(m', i, j)
    {
      assert Exclusive(m, i, j);
    }
    forall runId | runId in m'.active
      ensures HeldBySome(m', runId)
    {
      assert HeldBySome(m, runId);
    }
  }

  lemma NextKeeps(w: World, p: Program, m: Machine, act: Act)
    requires Forward(p.code) && Inv(w, p, m)
    ensures Inv(w, p, Next(w, p, m, act))
  {
    var m' := Next(w, p, m, act);
    if act.Enter? && act.id !in m.calls && act.id !in m.visits && (m.durable || act.request.Replay?) {
      EnteredKeeps(w, p, m, act.id, act.runId, act.request);
    } else if act.Proceed? && act.id in m.calls && InFlight(m.calls[act.id]) {
      ProceededKeeps(w, p, m, act.id);
    } else if act.Cancel? && act.id in m.calls && InFlight(m.calls[act.id]) {
      CancelledKeeps(w, p, m, act.id);
    } else {
      if act.Proceed? && act.id in m.visits && Visiting(m.visits[act.id]) {
        VisitKeeps(w, p, m.visits[act.id], Lookup(m.store, m.visits[act.id].runId));
      }
      VisitsChanged(w, p, m, m');
    }
  }

  function Idle(durable: bool, store: map<string, Record>): Machine {
    Machine(durable, store, {}, map[], map[])
  }

  lemma {:induction false} PlayKeeps(w: World, p: Program, durable: bool, store: map<string, Record>, acts: seq<Act>)
    requires Forward(p.code)
    ensures Inv(w, p, Play(w, p, Idle(durable, store), acts))
    decreases |acts|
  {
    if acts != [] {
      PlayKeeps(w, p, durable, store, Front(acts));
      NextKeeps(w, p, Play(w, p, Idle(durable, store), Front(acts)), Last(acts));
    }
  }

  // ---------------------------------------------------------------- main results

  /** One flight per run id, and the active set is exactly the run ids in flight. */
  ghost predicate MutualExclusion(m: Machine) {
    && (forall i, j | i in m.calls && j in m.calls && InFlight(m.calls[i]) && InFlight(m.calls[j]) ::
          m.calls[i].runId == m.calls[j].runId ==> i == j)
    && (forall runId :: runId in m.active <==> HeldBySome(m, runId))
  }

  lemma InvExcludes(w: World, p: Program, m: Machine)
    requires Forward(p.code) && Inv(w, p, m)
    ensures MutualExclusion(m)
  {
    forall i, j | i in m.calls && j in m.calls && InFlight(m.calls[i]) && InFlight(m.calls[j])
      ensures m.calls[i].runId == m.calls[j].runId ==> i == j
    {
      assert Exclusive(m, i, j);
    }
    forall runId | HeldBySome(m, runId)
      ensures runId in m.active
    {
      var k :| k in m.calls && InFlight(m.calls[k]) && m.calls[k].runId == runId;
      assert CallOk(w, p, m, k);
    }
  }

  /** Mutual exclusion, in every schedule. */
  lemma OneFlightPerRunId(w: World, p: Program, durable: bool, store: map<string, Record>, acts: seq<Act>)
    requires Forward(p.code)
    ensures MutualExclusion(Play(w, p, Idle(durable, store), acts))
  {
    PlayKeeps(w, p, durable, store, acts);
    InvExcludes(w, p, Play(w, p, Idle(durable, store), acts));
  }

  /** Only the call in flight under a run id changes that id's entry. */
  lemma OnlyTheHolderStores(w: World, p: Program, m: Machine, act: Act, runId: string)
    requires Forward(p.code)
    requires Lookup(Next(w, p, m, act).store, runId) != Lookup(m.store, runId)
    ensures act.Proceed? && act.id in m.calls && InFlight(m.calls[act.id]) && m.calls[act.id].runId == runId
  {
    if act.Proceed? && act.id in m.calls && InFlight(m.calls[act.id]) {
      var c := m.calls[act.id];
      PutLookup(m.store, c.runId, Stretch(w, p, c, Lookup(m.store, c.runId)).1, runId);
    }
  }

  /**
   * Non-interference: whatever else was in flight and in whatever order things happened, a finished
   * call replied, and left behind, what it would have if it had been alone with the entry it found.
   */
  lemma NonInterference(w: World, p: Program, durable: bool, store: map<string, Record>, acts: seq<Act>, id: nat)
    requires Forward(p.code)
    ensures var m := Play(w, p, Idle(durable, store), acts);
            id in m.calls && m.calls[id].phase.Finished? ==>
              Solo(w, p, m.calls[id].request, m.calls[id].before) == (m.calls[id].phase.reply, m.calls[id].after)
  {
    PlayKeeps(w, p, durable, store, acts);
    var m := Play(w, p, Idle(durable, store), acts);
    if id in m.calls {
      assert CallOk(w, p, m, id);
    }
  }

  /**
   * Who takes the lock. Every call of a durable pipeline, and every replay, is refused exactly if another is in
   * flight under its run id, and else holds it with the entry stored at that moment; other invokes take no lock.
   */
  lemma ArrivalsExactly(w: World, p: Program, durable: bool, store: map<string, Record>, acts: seq<Act>,
                        id: nat, runId: string, request: Request)
    requires Forward(p.code)
    requires var m := Play(w, p, Idle(durable, store), acts); id !in m.calls && id !in m.visits
    ensures var m := Play(w, p, Idle(durable, store), acts);
            var m', entry := Next(w, p, m, Enter(id, runId, request)), Lookup(m.store, runId);
            if durable || request.Replay? then
              && m'.visits == m.visits
              && m'.calls == m.calls[id := Flight(runId, request, if HeldBySome(m, runId) then Refused else Holding,
                                                  entry, entry)]
            else
              && m'.calls == m.calls && id in m'.visits
              && m'.visits[id] == Visit(runId, request.ctx, request.resume, Arrived, None)
  {
    PlayKeeps(w, p, durable, store, acts);
    InvExcludes(w, p, Play(w, p, Idle(durable, store), acts));
    StaysDurable(w, p, durable, store, acts);
  }

  lemma {:induction false} StaysDurable(w: World, p: Program, durable: bool, store: map<string, Record>, acts: seq<Act>)
    requires Forward(p.code)
    ensures Play(w, p, Idle(durable, store), acts).durable == durable
    decreases |acts|
  {
    if acts != [] {
      StaysDurable(w, p, durable, store, Front(acts));
      NextDurable(w, p, Play(w, p, Idle(durable, store), Front(acts)), Last(acts));
    }
  }

  lemma NextDurable(w: World, p: Program, m: Machine, act: Act)
    requires Forward(p.code)
    ensures Next(w, p, m, act).durable == m.durable
  {
  }

  /** Cancelling an invoke that holds no lock ends it, and touches nothing else. */
  lemma CancelEndsVisit(w: World, p: Program, m: Machine, id: nat)
    requires Forward(p.code) && id in m.visits && id !in m.calls && Visiting(m.visits[id])
    ensures var m' := Next(w, p, m, Cancel(id));
            && id in m'.visits && !Visiting(m'.visits[id]) && !m'.visits[id].phase.Replied?
            && m'.visits - {id} == m.visits - {id} && m' == m.(visits := m'.visits)
  {
  }

  /** In every schedule cancelling a call in flight frees its run id for the next one, and touches nothing else. */
  lemma CancelFrees(w: World, p: Program, durable: bool, store: map<string, Record>, acts: seq<Act>, id: nat)
    requires Forward(p.code)
    requires var m := Play(w, p, Idle(durable, store), acts); id in m.calls && InFlight(m.calls[id])
    ensures var m := Play(w, p, Idle(durable, store), acts);
            var m', runId := Next(w, p, m, Cancel(id)), m.calls[id].runId;
            && !HeldBySome(m', runId) && runId !in m'.active
            && m'.store == m.store && m'.visits == m.visits && m'.calls.Keys == m.calls.Keys
            && forall i :: i in m.calls && i != id ==> m'.calls[i] == m.calls[i]
  {
    PlayKeeps(w, p, durable, store, acts);
    var m := Play(w, p, Idle(durable, store), acts);
    var m' := Next(w, p, m, Cancel(id));
    CancelledKeeps(w, p, m, id);
    InvExcludes(w, p, m');
  }

  /**
   * A call about to enter the interpreter: an invoke as it was asked, with the entry as found; a replay with the
   * stored data, durably resuming, and if a step was given the stored record now points at it, data unchanged.
   */
  ghost predicate Prepared(p: Program, c: Flight, entry: Option<Record>) {
    c.phase.Starting? ==>
      match c.request
      case Invoke(ctx, resume) => c.phase == Starting(ctx, resume) && entry == c.before
      case Replay(fromStep) =>
        && c.before.Some? && c.phase == Starting(Ctx(c.before.value.data, {}, "replay"), true)
        && match fromStep
           case None => entry == c.before
           case Some(step) =>
             && FindStep(p.code, step, 0).Some?
             && entry == Some(Record(p.version, FindStep(p.code, step, 0).value, c.before.value.data))
  }

  ghost predicate AllPrepared(p: Program, m: Machine) {
    forall id :: id in m.calls ==> Prepared(p, m.calls[id], Lookup(m.store, m.calls[id].runId))
  }

  /** What is stored under another run id, or by nobody, stays. */
  lemma OthersKeepTheirEntry(w: World, p: Program, m: Machine, act: Act, i: nat)
    requires Forward(p.code) && Inv(w, p, m) && i in m.calls && InFlight(m.calls[i]) && act != Proceed(i)
    ensures Lookup(Next(w, p, m, act).store, m.calls[i].runId) == Lookup(m.store, m.calls[i].runId)
  {
    if act.Proceed? && act.id in m.calls && InFlight(m.calls[act.id]) {
      assert Exclusive(m, i, act.id);
    }
    if Lookup(Next(w, p, m, act).store, m.calls[i].runId) != Lookup(m.store, m.calls[i].runId) {
      OnlyTheHolderStores(w, p, m, act, m.calls[i].runId);
    }
  }

  lemma StretchPrepares(w: World, p: Program, c: Flight, entry: Option<Record>)
    requires Forward(p.code) && InFlight(c) && OnTrack(w, p, c, entry)
    ensures var (phase, entry') := Stretch(w, p, c, entry);
            Prepared(p, c.(phase := phase, after := entry'), entry')
  {
    match c.phase
    case Holding =>
    case Rewriting(_) =>
    case _ =>
  }

  lemma OwnTurnPrepares(w: World, p: Program, m: Machine, i: nat)
    requires Forward(p.code) && i in m.calls && InFlight(m.calls[i]) && CallOk(w, p, m, i)
    ensures var m' := Next(w, p, m, Proceed(i));
            i in m'.calls && Prepared(p, m'.calls[i], Lookup(m'.store, m'.calls[i].runId))
  {
    var c := m.calls[i];
    StretchPrepares(w, p, c, Lookup(m.store, c.runId));
    PutLookup(m.store, c.runId, Stretch(w, p, c, Lookup(m.store, c.runId)).1, c.runId);
  }

  lemma OthersKeepTheirCall(w: World, p: Program, m: Machine, act: Act, i: nat)
    requires Forward(p.code) && i in m.calls && InFlight(m.calls[i]) && act != Proceed(i)
    ensures var m' := Next(w, p, m, act);
            i in m'.calls && (m'.calls[i] == m.calls[i] || m'.calls[i] == m.calls[i].(phase := Abandoned))
  {
  }

  lemma NotYetStarting(w: World, p: Program, m: Machine, act: Act, i: nat)
    requires Forward(p.code) && (i in m.calls ==> !InFlight(m.calls[i])) && i in Next(w, p, m, act).calls
    ensures !Next(w, p, m, act).calls[i].phase.Starting?
  {
  }

  lemma PreparedNext(w: World, p: Program, m: Machine, act: Act, i: nat)
    requires Forward(p.code) && Inv(w, p, m) && AllPrepared(p, m) && i in Next(w, p, m, act).calls
    ensures var m' := Next(w, p, m, act); Prepared(p, m'.calls[i], Lookup(m'.store, m'.calls[i].runId))
  {
    if i in m.calls && InFlight(m.calls[i]) {
      if act == Proceed(i) {
        OwnTurnPrepares(w, p, m, i);
      } else {
        OthersKeepTheirEntry(w, p, m, act, i);
        OthersKeepTheirCall(w, p, m, act, i);
      }
    } else {
      NotYetStarting(w, p, m, act, i);
    }
  }

  /** In every schedule every call enters the interpreter as it was asked to, with the store as it should be. */
  lemma {:induction false} EveryCallIsPrepared(w: World, p: Program, durable: bool, store: map<string, Record>,
                                               acts: seq<Act>)
    requires Forward(p.code)
    ensures AllPrepared(p, Play(w, p, Idle(durable, store), acts))
    decreases |acts|
  {
    if acts != [] {
      EveryCallIsPrepared(w, p, durable, store, Front(acts));
      PlayKeeps(w, p, durable, store, Front(acts));
      var m := Play(w, p, Idle(durable, store), Front(acts));
      forall i | i in Next(w, p, m, Last(acts)).calls
        ensures var m' := Next(w, p, m, Last(acts)); Prepared(p, m'.calls[i], Lookup(m'.store, m'.calls[i].runId))
      {
        PreparedNext(w, p, m, Last(acts), i);
      }
    }
  }

  /** A visit reads one entry, once, as it is at that moment. */
  lemma VisitReadsOnce(w: World, p: Program, m: Machine, act: Act, id: nat)
    requires Forward(p.code) && id in m.visits && id !in m.calls
    ensures var v, v' := m.visits[id], Next(w, p, m, act).visits[id];
            v'.found == if act == Proceed(id) && v.phase.Arrived? then Lookup(m.store, v.runId) else v.found
  {
  }

  /**
   * Next to replays that hold the lock, invokes of a pipeline that is not durable go undisturbed, and
   * undisturbing: in every schedule a visit replies as the run alone from the entry it found does.
   */
  lemma VisitsUndisturbed(w: World, p: Program, durable: bool, store: map<string, Record>, acts: seq<Act>, id: nat)
    requires Forward(p.code)
    ensures var m := Play(w, p, Idle(durable, store), acts);
            id in m.visits && m.visits[id].phase.Replied? ==> VisitReply(w, p, m.visits[id]) == m.visits[id].phase.reply
  {
    PlayKeeps(w, p, durable, store, acts);
    var m := Play(w, p, Idle(durable, store), acts);
    if id in m.visits {
      assert VisitOk(w, p, m.visits[id]);
    }
  }

  /** Storing nothing, it replies as a durable run would that is alone with that entry. */
  lemma VisitsReplyAsDurable(w: World, p: Program, v: Visit)
    requires Forward(p.code)
    ensures VisitReply(w, p, v) == Solo(w, p, Invoke(v.ctx, v.resume), v.found).0
  {
    match Started(p, v.ctx, v.resume, v.found)
    case Ok(s) => SlotUnseen(w, p, false, true, s, s);
    case Err(_) =>
  }

  /** While nothing proceeds under a run id its entry stays: what one call finds is what the one before it left. */
  lemma {:induction false} EntryKept(w: World, p: Program, m: Machine, acts: seq<Act>, runId: string)
    requires Forward(p.code)
    requires forall k :: 0 <= k < |acts| ==>
               !(acts[k].Proceed? && var n := Play(w, p, m, acts[..k]);
                 acts[k].id in n.calls && InFlight(n.calls[acts[k].id]) && n.calls[acts[k].id].runId == runId)
    ensures Lookup(Play(w, p, m, acts).store, runId) == Lookup(m.store, runId)
    decreases |acts|
  {
    if acts != [] {
      forall k | 0 <= k < |Front(acts)|
        ensures Front(acts)[k] == acts[k] && Front(acts)[..k] == acts[..k]
      {
      }
      EntryKept(w, p, m, Front(acts), runId);
      var last := |acts| - 1;
      assert acts[..last] == Front(acts) && acts[last] == Last(acts);
      var before := Play(w, p, m, Front(acts));
      if Lookup(Next(w, p, before, Last(acts)).store, runId) != Lookup(before.store, runId) {
        OnlyTheHolderStores(w, p, before, Last(acts), runId);
      }
    }
  }

  // ------------------------------------------------------------------- progress

  function TurnsLeft(p: Program, c: Flight): nat {
    match c.phase
    case Holding => |p.code| + 5
    case Rewriting(_) => |p.code| + 4
    case Starting(_, _) => |p.code| + 3
    case Running(s) => (if s.ip < |p.code| then |p.code| - s.ip else 0) + 2
    case Ending(_) => 1
    case _ => 0
  }

  lemma StretchCounts(w: World, p: Program, c: Flight, entry: Option<Record>)
    requires Forward(p.code) && InFlight(c)
    ensures TurnsLeft(p, c.(phase := Stretch(w, p, c, entry).0)) < TurnsLeft(p, c)
  {
    if c.phase.Running? && c.phase.s.ip < |p.code| {
      StepForward(w, p, true, c.phase.s);
    }
  }

  /**
   * Nothing ever waits for another call: each turn brings a call nearer its reply, and nobody else's turn sets
   * it back.
   */
  lemma EveryTurnCounts(w: World, p: Program, m: Machine, act: Act, id: nat)
    requires Forward(p.code) && id in m.calls && InFlight(m.calls[id])
    ensures var m' := Next(w, p, m, act);
            && id in m'.calls
            && (act == Proceed(id) ==> TurnsLeft(p, m'.calls[id]) < TurnsLeft(p, m.calls[id]))
            && (act != Proceed(id) && act != Cancel(id) ==> m'.calls[id] == m.calls[id])
  {
    StretchCounts(w, p, m.calls[id], Lookup(m.store, m.calls[id].runId));
  }

  function VisitTurnsLeft(p: Program, v: Visit): nat {
    match v.phase
    case Arrived => |p.code| + 2
    case Looping(s) => (if s.ip < |p.code| then |p.code| - s.ip else 0) + 1
    case _ => 0
  }

  /** A visit, too, comes nearer its reply with each of its own turns. */
  lemma EveryVisitTurnCounts(w: World, p: Program, v: Visit, entry: Option<Record>)
    requires Forward(p.code) && Visiting(v)
    ensures VisitTurnsLeft(p, VisitNext(w, p, v, entry)) < VisitTurnsLeft(p, v)
  {
    if v.phase.Looping? && v.phase.s.ip < |p.code| {
      StepForward(w, p, false, v.phase.s);
    }
  }
}
