/** `CircuitBreakerMiddleware`: entering and leaving a call are separate atomic steps; any number of calls overlap. */
module Breakers {
  import opened Primitives

  datatype Mode = Closed | Open | HalfOpen

  /** The breaker's mutable fields. */
  datatype Circuit = Circuit(mode: Mode, failures: nat, openedAt: Option<real>, probing: bool)

  datatype Settings = Settings(threshold: int, recovery: real)

  /** How an entering call fares; `Broken` is the AssertionError of an open breaker without an opening time. */
  datatype Verdict = Admit(probe: bool) | CircuitOpen | Broken

  const NEW_CIRCUIT := Circuit(Closed, 0, None, false)

  function Judge(cfg: Settings, c: Circuit, now: real): Verdict {
    match c.mode
    case Closed => Admit(false)
    case Open =>
      if c.openedAt.None? then Broken
      else if now - c.openedAt.value >= cfg.recovery && !c.probing then Admit(true)
      else CircuitOpen
    case HalfOpen => if c.probing then CircuitOpen else Admit(true)
  }

  function Entered(cfg: Settings, c: Circuit, now: real): Circuit {
    if Judge(cfg, c, now) != Admit(true) then c else c.(mode := HalfOpen, probing := true)
  }

  function Succeeding(c: Circuit, probe: bool): Circuit {
    Circuit(Closed, 0, None, if probe then false else c.probing)
  }

  /** Does this failure open, or re-open, the circuit? */
  predicate Opens(cfg: Settings, c: Circuit, probe: bool) {
    probe || c.failures + 1 >= cfg.threshold
  }

  function Failing(cfg: Settings, c: Circuit, probe: bool, now: real): Circuit {
    var counted := if probe then c.(probing := false) else c.(failures := c.failures + 1);
    if Opens(cfg, c, probe) then counted.(mode := Open, openedAt := Some(now)) else counted
  }

  class CircuitBreaker {
    const cfg: Settings
    var mode: Mode
    var failures: nat
    var openedAt: Option<real>
    var probing: bool

    constructor (cfg: Settings)
      ensures this.cfg == cfg && Value() == NEW_CIRCUIT
    {
      this.cfg := cfg;
      mode, failures, openedAt, probing := Closed, 0, None, false;
    }

    function Value(): Circuit
      reads this
    {
      Circuit(mode, failures, openedAt, probing)
    }

    /** Up to the call of the next handler, under the lock. */
    method Enter(now: real) returns (v: Verdict)
      modifies this
      ensures v == Judge(cfg, old(Value()), now) && Value() == Entered(cfg, old(Value()), now)
    {
      if mode == Open {
        if openedAt.None? {
          return Broken;
        }
        if now - openedAt.value >= cfg.recovery && !probing {
          mode := HalfOpen;
          probing := true;
          return Admit(true);
        }
        return CircuitOpen;
      } else if mode == HalfOpen && !probing {
        probing := true;
        return Admit(true);
      } else if mode == HalfOpen {
        return CircuitOpen;
      }
      v := Admit(false);
    }

    /** After the call returned. */
    method ExitOk(probe: bool)
      modifies this
      ensures Value() == Succeeding(old(Value()), probe)
    {
      if probe {
        probing := false;
      }
      failures := 0;
      mode := Closed;
      openedAt := None;
    }

    /** After the call raised one of the configured exceptions; any other exit leaves the breaker alone. */
    method ExitFail(probe: bool, now: real)
      modifies this
      ensures Value() == Failing(cfg, old(Value()), probe, now)
    {
      if probe {
        probing := false;
        mode := Open;
        openedAt := Some(now);
      } else {
        failures := failures + 1;
        if failures >= cfg.threshold {
          mode := Open;
          openedAt := Some(now);
        }
      }
    }
  }

  // ------------------------------------------------------ any number of calls

  /** The log of a schedule. A call is known by the index of its `Admitted` entry. */
  datatype Entry =
    | Admitted(probe: bool, at: real)
    | Rejected(at: real)
    | Succeeded(call: nat, at: real)
    | Failed(call: nat, probe: bool, at: real)
    | Dropped(call: nat, at: real)  // cancelled, or left with an exception that does not match

  /** `flights` are the calls between Enter and their exit, with their `is_probe`. */
  datatype Machine = Machine(circuit: Circuit, flights: map<nat, bool>, log: seq<Entry>)

  datatype Act =
    | Arrive(now: real)
    | Return(call: nat, now: real)
    | Raise(call: nat, now: real)
    | Leave(call: nat, now: real)

  predicate Timely(log: seq<Entry>, now: real) {
    log != [] ==> Last(log).at <= now
  }

  predicate Possible(m: Machine, act: Act) {
    && Timely(m.log, act.now)
    && (act.Arrive? || act.call in m.flights)
  }

  function Arrived(cfg: Settings, m: Machine, now: real): Machine {
    var id := |m.log|;
    match Judge(cfg, m.circuit, now)
    case Admit(probe) =>
      Machine(Entered(cfg, m.circuit, now), m.flights[id := probe], m.log + [Admitted(probe, now)])
    case _ => m.(log := m.log + [Rejected(now)])
  }

  /** Acts that are not possible change nothing, so any sequence of acts is a schedule. */
  function Next(cfg: Settings, m: Machine, act: Act): Machine {
    if !Possible(m, act) then m
    else
      match act
      case Arrive(now) => Arrived(cfg, m, now)
      case Return(id, now) =>
        Machine(Succeeding(m.circuit, m.flights[id]), m.flights - {id}, m.log + [Succeeded(id, now)])
      case Raise(id, now) =>
        var probe := m.flights[id];
        Machine(Failing(cfg, m.circuit, probe, now), m.flights - {id},
                m.log + [Failed(id, probe, now)])
      case Leave(id, now) => Machine(m.circuit, m.flights - {id}, m.log + [Dropped(id, now)])
  }

  const START := Machine(NEW_CIRCUIT, map[], [])

  function PlayFrom(cfg: Settings, m: Machine, acts: seq<Act>): Machine {
    if acts == [] then m else Next(cfg, PlayFrom(cfg, m, Front(acts)), Last(acts))
  }

  function Play(cfg: Settings, acts: seq<Act>): Machine {
    PlayFrom(cfg, START, acts)
  }

  // ----------------------------------------------------------------- invariants

  predicate IsProbe(m: Machine, id: nat) {
    id in m.flights && m.flights[id]
  }

  /**
   * Safety: at most one probe in flight and then the breaker says so; half-open means probing; closed
   * means no opening time, and fewer failures than the threshold.
   */
  ghost predicate Safe(cfg: Settings, m: Machine) {
    var c := m.circuit;
    && (forall i, j :: IsProbe(m, i) && IsProbe(m, j) ==> i == j)
    && (forall i :: IsProbe(m, i) ==> c.probing)
    && (c.mode.HalfOpen? ==> c.probing)
    && (c.mode.Closed? <==> c.openedAt.None?)
    && (c.mode.Closed? && cfg.threshold >= 1 ==> c.failures < cfg.threshold)
  }

  /** The non-probe failures since the last success. */
  function FailuresSince(log: seq<Entry>): nat {
    if log == [] || Last(log).Succeeded? then 0
    else FailuresSince(Front(log)) + if Last(log).Failed? && !Last(log).probe then 1 else 0
  }

  /** The log ends with a probe's failure, or one that brings the failures since the last success to the threshold. */
  predicate EndsOpening(cfg: Settings, log: seq<Entry>) {
    log != [] && Last(log).Failed? && (Last(log).probe || FailuresSince(log) >= cfg.threshold)
  }

  predicate IsOpening(cfg: Settings, log: seq<Entry>, k: nat) {
    k < |log| && EndsOpening(cfg, log[..k + 1])
  }

  /** The latest opening, if no call has succeeded since. */
  function StandingOpening(cfg: Settings, log: seq<Entry>): Option<nat> {
    if log == [] || Last(log).Succeeded? then None
    else if EndsOpening(cfg, log) then Some(|log| - 1)
    else StandingOpening(cfg, Front(log))
  }

  /** An opening after which nothing opened or succeeded is the standing one. */
  lemma {:induction false} StandsUntil(cfg: Settings, log: seq<Entry>, o: nat, n: nat)
    requires o < n <= |log| && IsOpening(cfg, log, o)
    requires forall k :: o < k < n ==> !log[k].Succeeded? && !IsOpening(cfg, log, k)
    ensures StandingOpening(cfg, log[..n]) == Some(o)
    decreases n
  {
    assert Last(log[..n]) == log[n - 1] && Front(log[..n]) == log[..n - 1];
    assert IsOpening(cfg, log, n - 1) <==> EndsOpening(cfg, log[..n]);
    if o < n - 1 {
      StandsUntil(cfg, log, o, n - 1);
    }
  }

  /** The entry tells how the call admitted at `a` ended; a dropped call is never heard of. */
  predicate Answers(e: Entry, a: nat) {
    (e.Succeeded? || e.Failed?) && e.call == a
  }

  /** A probe admitted at `a` that is still in flight, or was dropped. */
  ghost predicate Unanswered(log: seq<Entry>, a: nat) {
    && a < |log| && log[a].Admitted? && log[a].probe
    && forall k :: a < k < |log| ==> !Answers(log[k], a)
  }

  ghost predicate ProbeAway(log: seq<Entry>) {
    exists a :: Unanswered(log, a)
  }

  /** The breaker says it is probing exactly while a probe is away, and there is at most one. */
  ghost predicate ProbesLogged(m: Machine) {
    && (m.circuit.probing <==> ProbeAway(m.log))
    && (forall a, b :: Unanswered(m.log, a) && Unanswered(m.log, b) ==> a == b)
    && (forall id :: id in m.flights ==>
          && id < |m.log| && m.log[id].Admitted? && m.log[id].probe == m.flights[id]
          && forall k :: id < k < |m.log| ==> !Answers(m.log[k], id))
  }

  /** One more entry answers at most the probe it speaks of. */
  lemma UnansweredNext(log: seq<Entry>, e: Entry, a: nat)
    requires a < |log|
    ensures Unanswered(log + [e], a) <==> Unanswered(log, a) && !Answers(e, a)
  {
    var log' := log + [e];
    assert log'[|log|] == e && log'[a] == log[a];
    if Unanswered(log', a) {
      forall k | a < k < |log|
        ensures !Answers(log[k], a)
      {
        assert log'[k] == log[k];
      }
    }
  }

  /** The entry an act adds leaves every other probe as it was. */
  lemma ProbesAfter(cfg: Settings, m: Machine, act: Act)
    requires Possible(m, act)
    ensures var m' := Next(cfg, m, act);
            && m'.log != [] && m'.log == m.log + [Last(m'.log)]
            && (forall a: nat :: a < |m.log| ==>
                  (Unanswered(m'.log, a) <==> Unanswered(m.log, a) && !Answers(Last(m'.log), a)))
            && (Unanswered(m'.log, |m.log|) <==> Last(m'.log).Admitted? && Last(m'.log).probe)
  {
    var m' := Next(cfg, m, act);
    assert m'.log == m.log + [Last(m'.log)];
    forall a: nat | a < |m.log|
      ensures Unanswered(m'.log, a) <==> Unanswered(m.log, a) && !Answers(Last(m'.log), a)
    {
      UnansweredNext(m.log, Last(m'.log), a);
    }
  }

  /** The probe that is away, if any, after an act. */
  lemma ProbingNext(cfg: Settings, m: Machine, act: Act)
    requires Safe(cfg, m) && ProbesLogged(m) && Possible(m, act)
    ensures var m' := Next(cfg, m, act);
            && (m'.circuit.probing <==> ProbeAway(m'.log))
            && forall a, b :: Unanswered(m'.log, a) && Unanswered(m'.log, b) ==> a == b
  {
    var m' := Next(cfg, m, act);
    ProbesAfter(cfg, m, act);
    if (act.Return? || act.Raise?) && m.flights[act.call] {
      assert Unanswered(m.log, act.call);
      assert !ProbeAway(m'.log);
    } else if Unanswered(m'.log, |m.log|) {
      assert !ProbeAway(m.log) && ProbeAway(m'.log);
    } else if a :| Unanswered(m.log, a) {
      assert Unanswered(m'.log, a);
    }
  }

  lemma ProbesNext(cfg: Settings, m: Machine, act: Act)
    requires Safe(cfg, m) && ProbesLogged(m)
    ensures ProbesLogged(Next(cfg, m, act))
  {
    if Possible(m, act) {
      ProbesAfter(cfg, m, act);
      ProbingNext(cfg, m, act);
    }
  }

  /** An admission while an opening stands is a probe, and comes no earlier than the recovery timeout after it. */
  ghost predicate AdmittedInTime(cfg: Settings, log: seq<Entry>, a: nat)
    requires a < |log|
  {
    log[a].Admitted? ==>
      match StandingOpening(cfg, log[..a])
      case None => !log[a].probe
      case Some(o) => o < a && log[a].probe && log[a].at - log[o].at >= cfg.recovery
  }

  ghost predicate EntryOk(cfg: Settings, log: seq<Entry>, k: nat)
    requires k < |log|
  {
    && AdmittedInTime(cfg, log, k)
    && (log[k].Succeeded? ==> log[k].call < k && log[log[k].call].Admitted?)
    && (log[k].Failed? ==> log[k].call < k && log[log[k].call].Admitted? && log[k].probe == log[log[k].call].probe)
    && (forall j :: 0 <= j < k ==> log[j].at <= log[k].at)
  }

  /** The log agrees with the breaker's fields. */
  ghost predicate Logged(cfg: Settings, m: Machine) {
    && m.circuit.failures == FailuresSince(m.log)
    && (match StandingOpening(cfg, m.log)
        case None => m.circuit.openedAt.None?
        case Some(o) => o < |m.log| && m.circuit.openedAt == Some(m.log[o].at))
    && ProbesLogged(m)
    && (forall k :: 0 <= k < |m.log| ==> EntryOk(cfg, m.log, k))
  }

  lemma SafeNext(cfg: Settings, m: Machine, act: Act)
    requires Safe(cfg, m) && forall id :: id in m.flights ==> id < |m.log|
    ensures Safe(cfg, Next(cfg, m, act))
  {
    var m' := Next(cfg, m, act);
    forall i | IsProbe(m', i)
      ensures m'.circuit.probing
      ensures forall j :: IsProbe(m', j) ==> i == j
    {
      assert IsProbe(m, i) || (act.Arrive? && i == |m.log|);
      forall j | IsProbe(m', j)
        ensures i == j
      {
        assert IsProbe(m, j) || (act.Arrive? && j == |m.log|);
      }
      if !act.Arrive? && Possible(m, act) && m.flights[act.call] {
        assert IsProbe(m, act.call);
      }
    }
  }

  lemma EntriesKept(cfg: Settings, log: seq<Entry>, e: Entry)
    requires forall k :: 0 <= k < |log| ==> EntryOk(cfg, log, k)
    ensures forall k :: 0 <= k < |log| ==> EntryOk(cfg, log + [e], k)
  {
    forall k | 0 <= k < |log|
      ensures EntryOk(cfg, log + [e], k)
    {
      assert EntryOk(cfg, log, k);
      assert (log + [e])[..k] == log[..k] && (log + [e])[k] == log[k];
    }
  }

  /** The entry an act adds. */
  lemma NextEntry(cfg: Settings, m: Machine, act: Act)
    requires Safe(cfg, m) && Logged(cfg, m) && Possible(m, act)
    ensures var m' := Next(cfg, m, act);
            m'.log != [] && m'.log == m.log + [Last(m'.log)] && EntryOk(cfg, m'.log, |m.log|)
  {
    var m' := Next(cfg, m, act);
    var last := |m.log|;
    assert m'.log[..last] == m.log;
    if m.log != [] {
      assert EntryOk(cfg, m.log, last - 1);
    }
  }

  /** The fields follow the entry. */
  lemma NextFields(cfg: Settings, m: Machine, act: Act)
    requires Safe(cfg, m) && Logged(cfg, m) && Possible(m, act)
    ensures var m' := Next(cfg, m, act);
            && m'.circuit.failures == FailuresSince(m'.log)
            && (match StandingOpening(cfg, m'.log)
                case None => m'.circuit.openedAt.None?
                case Some(o) => o < |m'.log| && m'.circuit.openedAt == Some(m'.log[o].at))
  {
    var m' := Next(cfg, m, act);
    assert Front(m'.log) == m.log;
  }

  lemma LoggedNext(cfg: Settings, m: Machine, act: Act)
    requires Safe(cfg, m) && Logged(cfg, m)
    ensures Logged(cfg, Next(cfg, m, act))
  {
    if Possible(m, act) {
      NextEntry(cfg, m, act);
      NextFields(cfg, m, act);
      ProbesNext(cfg, m, act);
      EntriesKept(cfg, m.log, Last(Next(cfg, m, act).log));
    }
  }

  lemma {:induction false} PlayOk(cfg: Settings, acts: seq<Act>)
    ensures Safe(cfg, Play(cfg, acts)) && Logged(cfg, Play(cfg, acts))
  {
    if acts != [] {
      PlayOk(cfg, Front(acts));
      SafeNext(cfg, Play(cfg, Front(acts)), Last(acts));
      LoggedNext(cfg, Play(cfg, Front(acts)), Last(acts));
    }
  }

  // ---------------------------------------------------------------- main results

  /** Safety over every schedule of any number of calls, dropped ones included. */
  lemma BreakerSafe(cfg: Settings, acts: seq<Act>)
    ensures Safe(cfg, Play(cfg, acts))
    ensures Play(cfg, acts).circuit.failures == FailuresSince(Play(cfg, acts).log)
  {
    PlayOk(cfg, acts);
  }

  /** What a call that arrives at `now` is told, by the latest opening in the log and the probe that is away. */
  ghost function Admission(cfg: Settings, log: seq<Entry>, now: real): Entry {
    match StandingOpening(cfg, log)
    case None => Admitted(false, now)
    case Some(o) =>
      if o < |log| && now - log[o].at >= cfg.recovery && !ProbeAway(log) then Admitted(true, now) else Rejected(now)
  }

  /**
   * In every schedule a call that arrives while no opening stands is admitted; else it is admitted as a probe
   * exactly if the recovery timeout has passed since the latest opening and no probe is in flight or was dropped.
   */
  lemma AdmissionExactly(cfg: Settings, acts: seq<Act>, now: real)
    requires Timely(Play(cfg, acts).log, now)
    ensures var m := Play(cfg, acts);
            Next(cfg, m, Arrive(now)).log == m.log + [Admission(cfg, m.log, now)]
  {
    PlayOk(cfg, acts);
  }

  /**
   * In every schedule a failure opens the circuit, or opens it anew, exactly if its call was admitted as a probe
   * or the failures of other calls since the last success, this one included, reach the threshold; otherwise the
   * circuit stays as closed, or as open, as it was.
   */
  lemma OpeningExactly(cfg: Settings, acts: seq<Act>, id: nat, now: real)
    requires Timely(Play(cfg, acts).log, now) && id in Play(cfg, acts).flights
    ensures var m := Play(cfg, acts);
            var c := Next(cfg, m, Raise(id, now)).circuit;
            && id < |m.log| && m.log[id].Admitted?
            && if m.log[id].probe || FailuresSince(m.log) + 1 >= cfg.threshold
               then c.mode.Open? && c.openedAt == Some(now)
               else c.mode == m.circuit.mode && c.openedAt == m.circuit.openedAt
  {
    PlayOk(cfg, acts);
  }

  /**
   * In every schedule the breaker's fields are what the log says: closed exactly if no opening stands, its
   * opening time that of the latest opening, probing exactly while a probe is away.
   */
  lemma FieldsAreTheLog(cfg: Settings, acts: seq<Act>)
    ensures var m := Play(cfg, acts);
            && (m.circuit.mode.Closed? <==> StandingOpening(cfg, m.log).None?)
            && (match StandingOpening(cfg, m.log)
                case None => m.circuit.openedAt.None?
                case Some(o) => IsOpening(cfg, m.log, o) && m.circuit.openedAt == Some(m.log[o].at))
            && (m.circuit.probing <==> ProbeAway(m.log))
  {
    PlayOk(cfg, acts);
    StandingIsOpening(cfg, Play(cfg, acts).log);
  }

  lemma {:induction false} StandingIsOpening(cfg: Settings, log: seq<Entry>)
    ensures match StandingOpening(cfg, log)
            case None => true
            case Some(o) => IsOpening(cfg, log, o)
  {
    if log != [] && !Last(log).Succeeded? {
      if EndsOpening(cfg, log) {
        assert log[..|log|] == log;
      } else {
        StandingIsOpening(cfg, Front(log));
        var o := StandingOpening(cfg, log);
        assert o.Some? ==> Front(log)[..o.value + 1] == log[..o.value + 1];
      }
    }
  }

  /** The assertion never fails, and the branch for a half-open breaker without a probe is never taken. */
  lemma DeadBranches(cfg: Settings, acts: seq<Act>, now: real)
    ensures var c := Play(cfg, acts).circuit;
            !Judge(cfg, c, now).Broken? && !(c.mode.HalfOpen? && !c.probing)
  {
    PlayOk(cfg, acts);
  }

  /** The first success after index `o`, if there is one before `a`. */
  lemma {:induction false} FirstSuccess(log: seq<Entry>, o: nat, a: nat) returns (s: nat)
    requires o < a <= |log|
    ensures o < s <= a && (forall k :: o < k < s ==> !log[k].Succeeded?) && (s < a ==> log[s].Succeeded?)
    decreases a
  {
    s := a;
    if o < a - 1 {
      s := FirstSuccess(log, o, a - 1);
      if s == a - 1 && !log[s].Succeeded? {
        s := a;
      }
    }
  }

  /**
   * While a circuit that opened at entry `o` has not opened anew, no call is admitted within the recovery
   * timeout, unless a call that was already in flight at that opening has succeeded in between.
   */
  lemma QuietAfterOpening(cfg: Settings, acts: seq<Act>, o: nat, a: nat) returns (s: nat)
    requires var log := Play(cfg, acts).log;
             && o < a < |log| && IsOpening(cfg, log, o) && log[a].Admitted?
             && (forall k :: o < k < a ==> !IsOpening(cfg, log, k))
             && log[a].at - log[o].at < cfg.recovery
    ensures var log := Play(cfg, acts).log;
            o < s < a && log[s].Succeeded? && log[s].call < o
  {
    PlayOk(cfg, acts);
    var log := Play(cfg, acts).log;
    s := FirstSuccess(log, o, a);
    assert EntryOk(cfg, log, a);
    if s == a {
      StandsUntil(cfg, log, o, a);
    } else {
      var e := log[s].call;
      assert EntryOk(cfg, log, s) && log[e].Admitted? && EntryOk(cfg, log, e);
      if e > o {
        StandsUntil(cfg, log, o, e);
      }
    }
  }

  /** A circuit that no probe has touched is closed by a call admitted before it opened. */
  lemma StragglerCloses()
    ensures var cfg := Settings(1, 60.0);
            var m := Play(cfg, [Arrive(0.0), Arrive(0.0), Raise(0, 1.0)]);
            && m.circuit.mode.Open? && (forall id :: !IsProbe(m, id))
            && Next(cfg, m, Return(1, 2.0)).circuit.mode.Closed?
  {
  }

  /** A failing call that is no probe re-opens a circuit that is open already: its opening time moves on. */
  lemma StragglerReopens()
    ensures var cfg := Settings(1, 60.0);
            var m := Play(cfg, [Arrive(0.0), Arrive(0.0), Raise(0, 1.0)]);
            && m.circuit.openedAt == Some(1.0) && m.flights == map[1 := false]
            && Next(cfg, m, Raise(1, 2.0)).circuit.openedAt == Some(2.0)
  {
  }

  /** Up to and with this state the circuit has not closed. */
  ghost predicate NotYetClosed(cfg: Settings, m: Machine, acts: seq<Act>) {
    !PlayFrom(cfg, m, acts).circuit.mode.Closed? && (acts != [] ==> NotYetClosed(cfg, m, Front(acts)))
  }

  /** The act closes the circuit, or opens it anew. */
  predicate Moves(cfg: Settings, m: Machine, act: Act) {
    var c := Next(cfg, m, act).circuit;
    c.mode.Closed? || c.openedAt != m.circuit.openedAt
  }

  /** After `acts`, if the circuit has not closed until then and `act` moves it, `act` is a probe's outcome. */
  ghost predicate ProbeMoves(cfg: Settings, m: Machine, acts: seq<Act>, act: Act) {
    var n := PlayFrom(cfg, m, acts);
    NotYetClosed(cfg, m, acts) && Moves(cfg, n, act) ==>
      Possible(n, act) && (act.Return? || act.Raise?) && n.flights[act.call]
  }

  ghost predicate OnlyProbesInFlight(m: Machine) {
    forall id :: id in m.flights ==> m.flights[id]
  }

  /** A circuit that is not closed admits nobody but probes. */
  lemma {:induction false} ProbesStayAlone(cfg: Settings, m: Machine, acts: seq<Act>)
    requires Safe(cfg, m) && OnlyProbesInFlight(m) && NotYetClosed(cfg, m, acts)
    ensures OnlyProbesInFlight(PlayFrom(cfg, m, acts))
    decreases |acts|
  {
    if acts != [] {
      ProbesStayAlone(cfg, m, Front(acts));
    }
  }

  function Latest(m: Machine): real {
    if m.log == [] then 0.0 else Last(m.log).at
  }

  /** A call that is no probe closes the circuit by returning, and re-opens it by failing at the threshold. */
  lemma StragglerDecides(cfg: Settings, m: Machine, id: nat, now: real)
    requires Safe(cfg, m) && !m.circuit.mode.Closed? && id in m.flights && !m.flights[id] && Timely(m.log, now)
    ensures Next(cfg, m, Return(id, now)).circuit.mode.Closed?
    ensures var c := Next(cfg, m, Raise(id, now)).circuit;
            if m.circuit.failures + 1 >= cfg.threshold then c.mode.Open? && c.openedAt == Some(now)
            else c.mode == m.circuit.mode && c.openedAt == m.circuit.openedAt
  {
  }

  /**
   * When only the probe closes or re-opens a circuit. In whatever schedule follows, until the circuit
   * closes whatever closes it or moves its opening time is a probe's return or counted failure,
   * exactly if no call but a probe is in flight now.
   */
  lemma OnlyTheProbeDecidesExactly(cfg: Settings, m: Machine)
    requires Safe(cfg, m) && !m.circuit.mode.Closed?
    ensures (forall acts, act :: ProbeMoves(cfg, m, acts, act)) <==> OnlyProbesInFlight(m)
  {
    if OnlyProbesInFlight(m) {
      forall acts, act
        ensures ProbeMoves(cfg, m, acts, act)
      {
        if NotYetClosed(cfg, m, acts) {
          ProbesStayAlone(cfg, m, acts);
        }
      }
    } else {
      var id :| id in m.flights && !m.flights[id];
      assert PlayFrom(cfg, m, []) == m;
      assert !ProbeMoves(cfg, m, [], Return(id, Latest(m)));
    }
  }

  /** The probe has left without telling, and nobody else is in flight to close the circuit. */
  predicate Abandoned(m: Machine) {
    !m.circuit.mode.Closed? && m.circuit.probing && m.flights == map[]
  }

  /** A half-open circuit whose probe is dropped is abandoned exactly if the probe was the only call in flight. */
  lemma DroppedProbeAbandons(cfg: Settings, m: Machine, id: nat, now: real)
    requires Safe(cfg, m) && m.circuit.mode.HalfOpen? && IsProbe(m, id) && Timely(m.log, now)
    ensures Abandoned(Next(cfg, m, Leave(id, now))) <==> m.flights == map[id := true]
  {
    var m' := Next(cfg, m, Leave(id, now));
    if m'.flights == map[] {
      forall k | k in m.flights
        ensures k == id
      {
        assert k != id ==> k in m'.flights;
      }
      assert m.flights.Keys == {id};
    }
  }

  /** One failure, one probe that is dropped. */
  lemma AbandonedIsReached()
    ensures Abandoned(Play(Settings(1, 60.0), [Arrive(0.0), Raise(0, 1.0), Arrive(61.0), Leave(2, 62.0)]))
  {
    var cfg := Settings(1, 60.0);
    var a, b, c, d := Arrive(0.0), Raise(0, 1.0), Arrive(61.0), Leave(2, 62.0);
    assert Front([a, b, c, d]) == [a, b, c] && Front([a, b, c]) == [a, b] && Front([a, b]) == [a] && Front([a]) == [];
    assert Play(cfg, []) == START && START.log + [Admitted(false, 0.0)] == [Admitted(false, 0.0)];
    assert Play(cfg, [a]) == Machine(NEW_CIRCUIT, map[0 := false], [Admitted(false, 0.0)]);
    var m2 := Play(cfg, [a, b]);
    assert m2.circuit == Circuit(Open, 1, Some(1.0), false) && m2.flights == map[] && |m2.log| == 2;
    var m3 := Play(cfg, [a, b, c]);
    assert m3.circuit == Circuit(HalfOpen, 1, Some(1.0), true) && m3.flights == map[2 := true];
  }

  /** Then no schedule, however long, has any further call admitted. */
  lemma {:induction false} NeverAgain(cfg: Settings, m: Machine, acts: seq<Act>)
    requires Safe(cfg, m) && Abandoned(m)
    ensures var m' := PlayFrom(cfg, m, acts);
            && m'.circuit == m.circuit && m'.flights == map[]
            && |m.log| <= |m'.log| && forall k :: |m.log| <= k < |m'.log| ==> m'.log[k].Rejected?
    decreases |acts|
  {
    if acts != [] {
      NeverAgain(cfg, m, Front(acts));
    }
  }

  /** In every other state some schedule has a call admitted. */
  lemma AdmitsOtherwise(cfg: Settings, m: Machine) returns (acts: seq<Act>)
    requires Safe(cfg, m) && !Abandoned(m)
    ensures var m' := PlayFrom(cfg, m, acts); m'.log != [] && Last(m'.log).Admitted? && |m'.log| > |m.log|
  {
    var now := Latest(m);
    if m.circuit.mode.Closed? {
      acts := [Arrive(now)];
    } else if !m.circuit.probing {
      var due := m.circuit.openedAt.value + cfg.recovery;
      acts := [Arrive(if due > now then due else now)];
    } else {
      var id :| id in m.flights;
      acts := [Return(id, now), Arrive(now)];
      assert Front(acts) == [Return(id, now)];
      assert PlayFrom(cfg, m, []) == m && Front([Return(id, now)]) == [];
      assert PlayFrom(cfg, m, Front(acts)).circuit.mode.Closed?;
      return;
    }
    assert Front(acts) == [];
  }
}
