/** The spans of the branches of one FORK: every branch closes its own, whenever and however it ends. */
module BranchSpans {
  import opened Primitives

  /** The branches of a FORK, by whether each succeeds, and how their results are gathered. */
  datatype Gather = Gather(succeeds: seq<bool>, mode: ForkMode)

  /** `GatherOver` is the moment FORK goes on; `Reported` is the on_error of a FORK that raised. */
  datatype Event = SpanStarted(branch: nat) | SpanEnded(branch: nat) | GatherOver | Reported

  datatype Phase = Pending | Open | Closed

  datatype Driver = Waiting | Gathered | Raised

  datatype State = State(phases: seq<Phase>, driver: Driver, trace: seq<Event>)

  /** The event loop runs the branches and the gathering coroutine in any order. */
  datatype Act = Begin(i: nat) | End(i: nat) | GoOn | Raise

  function Start(g: Gather): State {
    State(seq(|g.succeeds|, _ => Pending), Waiting, [])
  }

  predicate AllClosed(phases: seq<Phase>) {
    forall i :: 0 <= i < |phases| ==> phases[i].Closed?
  }

  predicate AllSucceed(g: Gather) {
    forall i :: 0 <= i < |g.succeeds| ==> g.succeeds[i]
  }

  /** A branch that failed has ended; in PARALLEL mode the first such error is raised at once. */
  predicate SomeFailed(g: Gather, s: State) {
    exists i :: 0 <= i < |s.phases| && i < |g.succeeds| && s.phases[i].Closed? && !g.succeeds[i]
  }

  predicate Enabled(g: Gather, s: State, act: Act) {
    match act
    case Begin(i) => i < |s.phases| && s.phases[i].Pending?
    case End(i) => i < |s.phases| && s.phases[i].Open?
    case GoOn => s.driver.Waiting? && AllClosed(s.phases) && (g.mode.FireForget? || !SomeFailed(g, s))
    case Raise => s.driver.Waiting? && g.mode.Parallel? && SomeFailed(g, s)
  }

  function Next(g: Gather, s: State, act: Act): State
    requires Enabled(g, s, act)
  {
    match act
    case Begin(i) => s.(phases := s.phases[i := Open], trace := s.trace + [SpanStarted(i)])
    case End(i) => s.(phases := s.phases[i := Closed], trace := s.trace + [SpanEnded(i)])
    case GoOn => s.(driver := Gathered, trace := s.trace + [GatherOver])
    case Raise => s.(driver := Raised, trace := s.trace + [Reported])
  }

  predicate Schedule(g: Gather, acts: seq<Act>) {
    acts != [] ==> Schedule(g, Front(acts)) && Enabled(g, Play(g, Front(acts)), Last(acts))
  }

  function Play(g: Gather, acts: seq<Act>): State {
    if acts == [] then Start(g)
    else
      var s := Play(g, Front(acts));
      if Enabled(g, s, Last(acts)) then Next(g, s, Last(acts)) else s
  }

  function Count(trace: seq<Event>, e: Event): nat {
    if trace == [] then 0 else Count(Front(trace), e) + if Last(trace) == e then 1 else 0
  }

  lemma CountAppend(trace: seq<Event>, e: Event, x: Event)
    ensures Count(trace + [e], x) == Count(trace, x) + if e == x then 1 else 0
  {
    assert Front(trace + [e]) == trace;
  }

  /** What a trace says of a branch: not started, started once, or started once and ended once. */
  ghost predicate SpanIs(trace: seq<Event>, i: nat, phase: Phase) {
    && Count(trace, SpanStarted(i)) == (if phase.Pending? then 0 else 1)
    && Count(trace, SpanEnded(i)) == (if phase.Closed? then 1 else 0)
  }

  ghost predicate Inv(g: Gather, s: State) {
    && |s.phases| == |g.succeeds|
    && (forall i :: 0 <= i < |s.phases| ==> SpanIs(s.trace, i, s.phases[i]))
    && Count(s.trace, GatherOver) == (if s.driver.Gathered? then 1 else 0)
    && Count(s.trace, Reported) == (if s.driver.Raised? then 1 else 0)
    && (s.driver.Gathered? ==> AllClosed(s.phases) && (g.mode.FireForget? || AllSucceed(g)))
    && (s.driver.Raised? ==> g.mode.Parallel? && SomeFailed(g, s))
  }

  lemma SpansNext(g: Gather, s: State, act: Act)
    requires Inv(g, s) && Enabled(g, s, act)
    ensures var s' := Next(g, s, act); forall i :: 0 <= i < |s'.phases| ==> SpanIs(s'.trace, i, s'.phases[i])
  {
    var s' := Next(g, s, act);
    forall i | 0 <= i < |s'.phases|
      ensures SpanIs(s'.trace, i, s'.phases[i])
    {
      assert SpanIs(s.trace, i, s.phases[i]);
      CountAppend(s.trace, Last(s'.trace), SpanStarted(i));
      CountAppend(s.trace, Last(s'.trace), SpanEnded(i));
    }
  }

  lemma NextKeeps(g: Gather, s: State, act: Act)
    requires Inv(g, s) && Enabled(g, s, act)
    ensures Inv(g, Next(g, s, act))
  {
    var s' := Next(g, s, act);
    SpansNext(g, s, act);
    CountAppend(s.trace, Last(s'.trace), GatherOver);
    CountAppend(s.trace, Last(s'.trace), Reported);
    if s.driver.Raised? {
      var i :| 0 <= i < |s.phases| && i < |g.succeeds| && s.phases[i].Closed? && !g.succeeds[i];
      assert s'.phases[i].Closed?;
    }
    if act.GoOn? && g.mode.Parallel? {
      forall i | 0 <= i < |g.succeeds|
        ensures g.succeeds[i]
      {
        assert s.phases[i].Closed?;
      }
    }
  }

  lemma {:induction false} PlayKeeps(g: Gather, acts: seq<Act>)
    requires Schedule(g, acts)
    ensures Inv(g, Play(g, acts)) && |Play(g, acts).trace| == |acts|
  {
    if acts != [] {
      PlayKeeps(g, Front(acts));
      NextKeeps(g, Play(g, Front(acts)), Last(acts));
    }
  }

  // ---------------------------------------------------------------- main results

  ghost predicate Stuck(g: Gather, s: State) {
    forall act :: !Enabled(g, s, act)
  }

  /** In every schedule, at every instant, a branch has started at most once and ended at most as often as started. */
  lemma BranchSpansPaired(g: Gather, acts: seq<Act>, i: nat)
    requires Schedule(g, acts) && i < |g.succeeds|
    ensures var trace := Play(g, acts).trace;
            Count(trace, SpanEnded(i)) <= Count(trace, SpanStarted(i)) <= 1
  {
    PlayKeeps(g, acts);
    var s := Play(g, acts);
    assert SpanIs(s.trace, i, s.phases[i]);
  }

  lemma StuckIsClosed(g: Gather, s: State)
    requires Stuck(g, s)
    ensures AllClosed(s.phases)
  {
    forall i | 0 <= i < |s.phases|
      ensures s.phases[i].Closed?
    {
      assert !Enabled(g, s, Begin(i)) && !Enabled(g, s, End(i));
    }
  }

  lemma StuckIsSettled(g: Gather, s: State)
    requires Inv(g, s) && Stuck(g, s) && AllClosed(s.phases)
    ensures s.driver == if g.mode.FireForget? || AllSucceed(g) then Gathered else Raised
  {
    assert !Enabled(g, s, GoOn) && !Enabled(g, s, Raise);
    if i :| 0 <= i < |g.succeeds| && !g.succeeds[i] {
      assert s.phases[i].Closed?;
      assert SomeFailed(g, s);
    } else {
      assert !SomeFailed(g, s);
    }
  }

  /**
   * When nothing can go on any more every branch has been opened and closed exactly once, whether it
   * succeeded or failed; and FORK has raised exactly if a branch of a PARALLEL block fails.
   */
  lemma EveryBranchCloses(g: Gather, acts: seq<Act>)
    requires Schedule(g, acts) && Stuck(g, Play(g, acts))
    ensures var s := Play(g, acts);
            && (forall i :: 0 <= i < |g.succeeds| ==> SpanIs(s.trace, i, Closed))
            && s.driver == if g.mode.FireForget? || AllSucceed(g) then Gathered else Raised
  {
    PlayKeeps(g, acts);
    var s := Play(g, acts);
    StuckIsClosed(g, s);
    StuckIsSettled(g, s);
    forall i | 0 <= i < |g.succeeds|
      ensures SpanIs(s.trace, i, Closed)
    {
      assert SpanIs(s.trace, i, s.phases[i]);
    }
  }

  /** When FORK goes on, all spans of its branches are closed, and no branch reports anything after that. */
  lemma {:induction false} NothingAfterGather(g: Gather, acts: seq<Act>)
    requires Schedule(g, acts) && Play(g, acts).driver.Gathered?
    ensures Last(Play(g, acts).trace) == GatherOver && AllClosed(Play(g, acts).phases)
  {
    PlayKeeps(g, acts);
    PlayKeeps(g, Front(acts));
  }

  /** The error report is preceded by the end of the branch it is about. */
  lemma ReportFollowsItsBranch(g: Gather, acts: seq<Act>) returns (i: nat)
    requires Schedule(g, acts) && Enabled(g, Play(g, acts), Raise)
    ensures i < |g.succeeds| && !g.succeeds[i] && Count(Play(g, acts).trace, SpanEnded(i)) == 1
  {
    PlayKeeps(g, acts);
    var s := Play(g, acts);
    i :| 0 <= i < |s.phases| && i < |g.succeeds| && s.phases[i].Closed? && !g.succeeds[i];
    assert SpanIs(s.trace, i, s.phases[i]);
  }

  predicate IsClosed(s: State, i: nat) {
    i < |s.phases| && s.phases[i].Closed?
  }

  /** Whatever else happened, a branch that has not ended can still end. */
  lemma CanEnd(g: Gather, acts: seq<Act>, i: nat) returns (more: seq<Act>)
    requires Schedule(g, acts) && i < |g.succeeds| && !IsClosed(Play(g, acts), i)
    ensures LateEnd(g, acts, more, i)
  {
    PlayKeeps(g, acts);
    var begun := acts;
    if Play(g, acts).phases[i].Pending? {
      begun := acts + [Begin(i)];
      assert Front(begun) == acts;
    }
    more := begun + [End(i)];
    assert Front(more) == begun;
  }

  lemma NoSecondEnd(g: Gather, acts: seq<Act>, more: seq<Act>, i: nat)
    requires Schedule(g, acts) && IsClosed(Play(g, acts), i) && i < |g.succeeds|
    ensures !LateEnd(g, acts, more, i)
  {
    if acts < more && Schedule(g, more) {
      ClosedStays(g, acts, Front(more), i);
    }
  }

  /**
   * Which branches end after the error was reported: exactly those that had not ended by then can, and
   * unless the run is cut off will, because gathering raises the first error without stopping the others.
   */
  lemma LateEndExactly(g: Gather, acts: seq<Act>, i: nat)
    requires Schedule(g, acts) && Play(g, acts).driver.Raised? && i < |g.succeeds|
    ensures (exists more :: LateEnd(g, acts, more, i)) <==> !IsClosed(Play(g, acts), i)
  {
    if !IsClosed(Play(g, acts), i) {
      var more := CanEnd(g, acts, i);
    } else {
      forall more
        ensures !LateEnd(g, acts, more, i)
      {
        NoSecondEnd(g, acts, more, i);
      }
    }
  }

  /** In a schedule that goes on from `acts`, branch `i` ends with its last act. */
  ghost predicate LateEnd(g: Gather, acts: seq<Act>, more: seq<Act>, i: nat) {
    acts < more && Schedule(g, more) && Last(more) == End(i)
  }

  lemma {:induction false} ClosedStays(g: Gather, acts: seq<Act>, more: seq<Act>, i: nat)
    requires acts <= more && Schedule(g, more) && i < |g.succeeds|
    requires IsClosed(Play(g, acts), i)
    ensures IsClosed(Play(g, more), i)
    decreases |more|
  {
    if |acts| < |more| {
      ClosedStays(g, acts, Front(more), i);
      PlayKeeps(g, Front(more));
    } else {
      assert acts == more;
    }
  }

  /** Two branches, the first fails: the second is open when the error is reported, and ends after it. */
  lemma SiblingOutlivesReport()
    ensures var g := Gather([false, true], Parallel);
            var acts := [Begin(0), Begin(1), End(0), Raise, End(1)];
            Schedule(g, acts)
            && Play(g, acts).trace == [SpanStarted(0), SpanStarted(1), SpanEnded(0), Reported, SpanEnded(1)]
  {
    var g := Gather([false, true], Parallel);
    var a1, a2, a3 := [Begin(0)], [Begin(0), Begin(1)], [Begin(0), Begin(1), End(0)];
    var a4, acts := [Begin(0), Begin(1), End(0), Raise], [Begin(0), Begin(1), End(0), Raise, End(1)];
    assert Front(a1) == [] && Front(a2) == a1 && Front(a3) == a2 && Front(a4) == a3 && Front(acts) == a4;
    assert Play(g, []) == Start(g) && Start(g).phases == [Pending, Pending];
    assert Play(g, a1) == State([Open, Pending], Waiting, [SpanStarted(0)]);
    assert Play(g, a2) == State([Open, Open], Waiting, [SpanStarted(0), SpanStarted(1)]);
    assert Play(g, a3) == State([Closed, Open], Waiting, [SpanStarted(0), SpanStarted(1), SpanEnded(0)]);
    assert Play(g, a3).phases[0].Closed? && !g.succeeds[0] && SomeFailed(g, Play(g, a3));
    assert Play(g, a4) == State([Closed, Open], Raised, [SpanStarted(0), SpanStarted(1), SpanEnded(0), Reported]);
  }
}
