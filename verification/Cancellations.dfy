/** What a cancelled call leaves behind: enough to get the reply it would have given. */
module Cancellations {
  import opened Primitives
  import opened Contexts
  import opened Bytecode
  import opened Vm
  import ControlFlow
  import opened Resume
  import opened Requests
  import opened DurableRuns

  // ------------------------------------------------------------- sound entries

  /** A record of this program's version points where one may be resumed. */
  ghost predicate GoodEntry(p: Program, entry: Option<Record>) {
    entry.Some? && entry.value.version == p.version ==> Resumable(p.code, entry.value.ip)
  }

  ghost predicate GoodStore(p: Program, store: map<string, Record>) {
    forall runId :: GoodEntry(p, Lookup(store, runId))
  }

  ghost predicate GoodMachine(p: Program, m: Machine) {
    GoodStore(p, m.store) && forall id :: id in m.calls ==> GoodEntry(p, m.calls[id].before)
  }

  /** No stretch of a call stores anything but a CHECKPOINT or a step_start. */
  lemma StretchStoresGood(w: World, p: Program, c: Flight, entry: Option<Record>)
    requires Forward(p.code) && InFlight(c) && OnTrack(w, p, c, entry) && GoodEntry(p, entry)
    ensures GoodEntry(p, Stretch(w, p, c, entry).1)
  {
    match c.phase
    case Running(s) =>
    case Rewriting(record) => assert p.code[record.ip].EmitStepStart?;
    case _ =>
  }

  lemma ProceededGood(w: World, p: Program, m: Machine, id: nat)
    requires Forward(p.code) && GoodMachine(p, m) && id in m.calls && InFlight(m.calls[id]) && CallOk(w, p, m, id)
    ensures GoodMachine(p, Proceeded(w, p, m, id))
  {
    var c := m.calls[id];
    var entry := Lookup(m.store, c.runId);
    StretchStoresGood(w, p, c, entry);
    forall runId
      ensures GoodEntry(p, Lookup(Proceeded(w, p, m, id).store, runId))
    {
      PutLookup(m.store, c.runId, Stretch(w, p, c, entry).1, runId);
      assert GoodEntry(p, Lookup(m.store, runId));
    }
  }

  lemma EnteredGood(p: Program, m: Machine, id: nat, runId: string, request: Request)
    requires GoodMachine(p, m)
    ensures GoodMachine(p, Entered(m, id, runId, request))
  {
    assert GoodEntry(p, Lookup(m.store, runId));
  }

  lemma NextKeepsGood(w: World, p: Program, m: Machine, act: Act)
    requires Forward(p.code) && Inv(w, p, m) && GoodMachine(p, m)
    ensures GoodMachine(p, DurableRuns.Next(w, p, m, act))
  {
    match act
    case Enter(id, runId, request) => EnteredGood(p, m, id, runId, request);
    case Proceed(id) =>
      if id in m.calls && InFlight(m.calls[id]) {
        assert CallOk(w, p, m, id);
        ProceededGood(w, p, m, id);
      }
    case Cancel(_) =>
  }

  /** In every schedule all entries stay sound, those found by calls included. */
  lemma {:induction false} EntriesStayGood(w: World, p: Program, durable: bool, store: map<string, Record>,
                                           acts: seq<Act>)
    requires Forward(p.code) && GoodStore(p, store)
    ensures GoodMachine(p, Play(w, p, Idle(durable, store), acts))
    decreases |acts|
  {
    if acts != [] {
      EntriesStayGood(w, p, durable, store, Front(acts));
      PlayKeeps(w, p, durable, store, Front(acts));
      NextKeepsGood(w, p, Play(w, p, Idle(durable, store), Front(acts)), Last(acts));
    }
  }

  /** A request enters the loop fresh, or at a sound entry. */
  lemma StartIsOrigin(p: Program, request: Request, entry: Option<Record>)
    requires ControlFlow.Structured(p.code) && StartOf(p, request, entry).Ok?
    requires StartsFresh(request) || GoodEntry(p, entry)
    ensures var start := StartOf(p, request, entry).value;
            Origin(p, start) && start.trace == [] && (start.slot.None? ==> StartsFresh(request))
  {
    if StartsFresh(request) {
      FreshIsSteady(p, request.ctx);
    } else {
      var start := StartOf(p, request, entry).value;
      RecordIsOrigin(p, start.slot.value, start.ctx.name);
    }
  }

  // ------------------------------------------------------------ cancel and resume

  /** The same error, or contexts with the same data. */
  ghost predicate SameReply(a: Reply, b: Reply) {
    match (a, b)
    case (Ok(c), Ok(c')) => c.data == c'.data
    case (Err(e), Err(e')) => e == e'
    case _ => false
  }

  /** Resuming what a run from `start` left after `n` instructions replies as the run itself does. */
  lemma RestartReplies(w: World, p: Program, start: State, n: nat, ctx: Context)
    requires Durable(w, p) && Origin(p, start) && start.trace == [] && After(w, p, start, n).slot.Some?
    ensures SameReply(Requests.Ending(Exec(w, p, true, start)).0,
                      Solo(w, p, Invoke(ctx, true), After(w, p, start, n).slot).0)
  {
    var entry := After(w, p, start, n).slot.value;
    var cuts := [Cut(n, ctx.name)];
    assert Front(cuts) == [] && AttemptFrom(w, p, start, Front(cuts)) == Some(start);
    assert AttemptFrom(w, p, start, cuts) == Some(Resumed(entry, ctx.name));
    var k := CrashResumeFrom(w, p, start, cuts);
    var m := LatestCheckpoint(w, p, start, n);
    assert entry.version == p.version;
  }

  /** An invoke that resumes gives the call's reply; without an entry, the call had started fresh and is called anew. */
  ghost predicate ResumeRecovers(w: World, p: Program, c: Flight, entry: Option<Record>, ctx: Context)
    requires Forward(p.code)
  {
    var reply := Solo(w, p, c.request, c.before).0;
    if entry.Some? then SameReply(reply, Solo(w, p, Invoke(ctx, true), entry).0)
    else StartsFresh(c.request) && Solo(w, p, c.request, entry).0 == reply
  }

  /** Calling anew with the same request gives the call's very reply. */
  ghost predicate CallingAgainRecovers(w: World, p: Program, c: Flight, entry: Option<Record>)
    requires Forward(p.code)
  {
    Solo(w, p, c.request, entry).0 == Solo(w, p, c.request, c.before).0
  }

  /** How to get the reply of a call that is cancelled in its present phase. */
  ghost predicate Recovers(w: World, p: Program, c: Flight, entry: Option<Record>, ctx: Context)
    requires Forward(p.code)
  {
    match c.phase
    case Running(_) => ResumeRecovers(w, p, c, entry, ctx)
    case Ending(reply) =>
      if Faulty(reply) then ResumeRecovers(w, p, c, entry, ctx)
      else if reply.Ok? then entry.None? && (StartsFresh(c.request) ==> CallingAgainRecovers(w, p, c, entry))
      else CallingAgainRecovers(w, p, c, entry)
    case _ => CallingAgainRecovers(w, p, c, entry)
  }

  lemma LeftBehindRecovers(w: World, p: Program, c: Flight, entry: Option<Record>, ctx: Context)
    requires Durable(w, p) && LeftBehind(w, p, c, entry)
    requires StartsFresh(c.request) || GoodEntry(p, c.before)
    ensures ResumeRecovers(w, p, c, entry, ctx)
  {
    var start := StartOf(p, c.request, c.before).value;
    var s :| Reached(w, p, start, s) && s.slot == entry;
    var n: nat :| s == After(w, p, start, n);
    StartIsOrigin(p, c.request, c.before);
    SoloFromStart(w, p, c.request, c.before);
    if entry.Some? {
      RestartReplies(w, p, start, n, ctx);
    } else if start.slot.Some? {
      SlotStays(w, p, start, n);
    }
  }

  /** A request that starts from both entries alike replies alike. */
  lemma RestartsRecover(w: World, p: Program, c: Flight, entry: Option<Record>)
    requires Forward(p.code) && Restarts(p, c, entry)
    ensures CallingAgainRecovers(w, p, c, entry)
  {
    SoloFromStart(w, p, c.request, entry);
    SoloFromStart(w, p, c.request, c.before);
  }

  /** The entry that an ended run leaves if it completed, and the entry it found if it never started. */
  lemma EndingLeaves(w: World, p: Program, c: Flight, entry: Option<Record>, reply: Reply)
    requires Forward(p.code) && Solo(w, p, c.request, c.before) == (reply, entry) && !Faulty(reply)
    ensures if reply.Ok? then entry.None? else entry == c.before
  {
    SoloFromStart(w, p, c.request, c.before);
  }

  lemma OnTrackRecovers(w: World, p: Program, c: Flight, entry: Option<Record>, ctx: Context)
    requires Durable(w, p) && InFlight(c) && OnTrack(w, p, c, entry)
    requires StartsFresh(c.request) || GoodEntry(p, c.before)
    ensures Recovers(w, p, c, entry, ctx)
  {
    match c.phase
    case Running(s) =>
      assert LeftBehind(w, p, c, entry);
      LeftBehindRecovers(w, p, c, entry, ctx);
    case Ending(reply) =>
      if Faulty(reply) {
        LeftBehindRecovers(w, p, c, entry, ctx);
      } else {
        EndingLeaves(w, p, c, entry, reply);
      }
    case Starting(_, _) => RestartsRecover(w, p, c, entry);
    case _ =>
  }

  /**
   * Cancelling anywhere in any schedule loses nothing but a reply that was ready. A call cancelled once it
   * runs, fresh, resumed or replayed, is resumed from the entry it left to the reply it would have given.
   * One cancelled before that, or after it was refused a start, replies the same when called again. And
   * if it had completed, its entry is gone and only a fresh call can be made again.
   */
  lemma CancelThenResume(w: World, p: Program, durable: bool, store: map<string, Record>, acts: seq<Act>, id: nat,
                         ctx: Context)
    requires Durable(w, p)
    ensures var m := Play(w, p, Idle(durable, store), acts);
            id in m.calls && InFlight(m.calls[id]) && (StartsFresh(m.calls[id].request) || GoodStore(p, store)) ==>
              Recovers(w, p, m.calls[id], Lookup(DurableRuns.Next(w, p, m, Cancel(id)).store, m.calls[id].runId), ctx)
  {
    PlayKeeps(w, p, durable, store, acts);
    var m := Play(w, p, Idle(durable, store), acts);
    if id in m.calls && InFlight(m.calls[id]) && (StartsFresh(m.calls[id].request) || GoodStore(p, store)) {
      assert CallOk(w, p, m, id);
      if GoodStore(p, store) {
        EntriesStayGood(w, p, durable, store, acts);
      }
      OnTrackRecovers(w, p, m.calls[id], Lookup(m.store, m.calls[id].runId), ctx);
    }
  }
}
