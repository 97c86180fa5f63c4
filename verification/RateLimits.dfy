/** `RateLimitMiddleware`: a sliding window of admission times, shared by any number of callers. */
module RateLimits {
  import opened Primitives

  /** The least whole number not below `rps`. */
  function Ceiling(rps: real): (n: int)
    ensures (n - 1) as real < rps <= n as real
  {
    if rps.Floor as real == rps then rps.Floor else rps.Floor + 1
  }

  ghost predicate IsSuffix(a: seq<real>, s: seq<real>) {
    |a| <= |s| && a == s[|s| - |a|..]
  }

  /** What is left of the window once everything a second or more old is gone from its front. */
  function Pruned(window: seq<real>, now: real): (r: seq<real>)
    ensures IsSuffix(r, window)
    ensures forall k :: 0 <= k < |window| - |r| ==> now - window[k] >= 1.0
    ensures r != [] ==> now - r[0] < 1.0
  {
    if window != [] && now - window[0] >= 1.0 then Pruned(window[1..], now) else window
  }

  /** One turn of the caller's loop: admitted now, or told how long to sleep. */
  datatype Verdict = Admit | Wait(seconds: real)

  class RateLimiter {
    const rps: real
    var window: seq<real>

    constructor (rps: real)
      requires rps > 0.0
      ensures this.rps == rps && window == []
    {
      this.rps := rps;
      window := [];
    }

    method TryAdmit(now: real) returns (v: Verdict)
      requires rps > 0.0
      modifies this
      ensures v == Judge(rps, old(window), now) && window == Turned(rps, old(window), now)
    {
      while window != [] && now - window[0] >= 1.0
        invariant Pruned(window, now) == Pruned(old(window), now)
        decreases |window|
      {
        window := window[1..];
      }
      if |window| as real < rps {
        window := window + [now];
        return Admit;
      }
      var wait := 1.0 - (now - window[0]);
      v := Wait(if wait > 0.001 then wait else 0.001);
    }
  }

  /** `RateLimitMiddleware(rps)`; None stands for the ValueError. */
  method NewLimiter(rps: real) returns (r: Option<RateLimiter>)
    ensures r.None? <==> rps <= 0.0
    ensures r.Some? ==> fresh(r.value) && r.value.rps == rps && r.value.window == []
  {
    if rps <= 0.0 {
      return None;
    }
    var limiter := new RateLimiter(rps);
    r := Some(limiter);
  }

  function Judge(rps: real, window: seq<real>, now: real): Verdict
    requires rps > 0.0
  {
    var kept := Pruned(window, now);
    if |kept| as real < rps then Admit
    else
      var wait := 1.0 - (now - kept[0]);
      Wait(if wait > 0.001 then wait else 0.001)
  }

  function Turned(rps: real, window: seq<real>, now: real): seq<real>
    requires rps > 0.0
  {
    var kept := Pruned(window, now);
    if Judge(rps, window, now).Admit? then kept + [now] else kept
  }

  // -------------------------------------------------- any callers, any schedule

  /** The window, every admission so far, and the clock at the latest turn. */
  datatype Machine = Machine(window: seq<real>, admitted: seq<real>, clock: real)

  /** A turn of any caller's loop; a clock that runs backwards is no schedule and changes nothing. */
  function Next(rps: real, m: Machine, now: real): Machine
    requires rps > 0.0
  {
    if now < m.clock then m
    else
      Machine(Turned(rps, m.window, now),
              if Judge(rps, m.window, now).Admit? then m.admitted + [now] else m.admitted,
              now)
  }

  function Play(rps: real, start: real, turns: seq<real>): Machine
    requires rps > 0.0
  {
    if turns == [] then Machine([], [], start) else Next(rps, Play(rps, start, Front(turns)), Last(turns))
  }

  ghost predicate Sorted(s: seq<real>) {
    forall i, j :: 0 <= i < j < |s| ==> s[i] <= s[j]
  }

  /** `gap` admissions later it is at least a second later. */
  ghost predicate Spaced(s: seq<real>, gap: int) {
    forall k :: 0 <= k < |s| && 0 <= k + gap < |s| ==> s[k + gap] - s[k] >= 1.0
  }

  /** The window is the sorted suffix of the admissions that starts with the first not known to be a second old. */
  ghost predicate Inv(n: int, m: Machine) {
    && Sorted(m.admitted) && (forall k :: 0 <= k < |m.admitted| ==> m.admitted[k] <= m.clock)
    && IsSuffix(m.window, m.admitted)
    && |m.window| <= n
    && (forall k :: 0 <= k < |m.admitted| - |m.window| ==> m.clock - m.admitted[k] >= 1.0)
    && Spaced(m.admitted, n)
  }

  /** Dropping only times a second old or more from the front of the window. */
  lemma PruneKeeps(n: int, m: Machine, kept: seq<real>, now: real)
    requires Inv(n, m) && m.clock <= now && IsSuffix(kept, m.window)
    requires forall k :: 0 <= k < |m.window| - |kept| ==> now - m.window[k] >= 1.0
    ensures Inv(n, Machine(kept, m.admitted, now))
  {
    SuffixOfSuffix(m.admitted, m.window, kept);
    forall k | 0 <= k < |m.admitted| - |kept|
      ensures now - m.admitted[k] >= 1.0
    {
      SuffixAt(m.window, m.admitted, k);
    }
  }

  lemma SuffixOfSuffix(s: seq<real>, a: seq<real>, b: seq<real>)
    requires IsSuffix(a, s) && IsSuffix(b, a)
    ensures IsSuffix(b, s)
  {
  }

  lemma SuffixAt(a: seq<real>, s: seq<real>, k: nat)
    requires IsSuffix(a, s) && k < |s|
    ensures k >= |s| - |a| ==> s[k] == a[k - (|s| - |a|)]
  {
  }

  lemma AdmitKeeps(n: int, m: Machine)
    requires Inv(n, m) && |m.window| < n
    ensures Inv(n, Machine(m.window + [m.clock], m.admitted + [m.clock], m.clock))
  {
    var admitted := m.admitted + [m.clock];
    forall k | 0 <= k < |admitted| && 0 <= k + n < |admitted|
      ensures admitted[k + n] - admitted[k] >= 1.0
    {
      if k + n == |m.admitted| {
        assert k < |m.admitted| - |m.window|;
      }
    }
  }

  lemma {:induction false} PlayKeeps(rps: real, start: real, turns: seq<real>)
    requires rps > 0.0
    ensures Inv(Ceiling(rps), Play(rps, start, turns))
  {
    if turns != [] {
      PlayKeeps(rps, start, Front(turns));
      var m, now := Play(rps, start, Front(turns)), Last(turns);
      if m.clock <= now {
        var kept := Pruned(m.window, now);
        PruneKeeps(Ceiling(rps), m, kept, now);
        if |kept| as real < rps {
          AdmitKeeps(Ceiling(rps), Machine(kept, m.admitted, now));
        }
      }
    }
  }

  // ---------------------------------------------------------------- main results

  /** How many of the times lie in the half-open unit interval from `t`. */
  function CountFrom(s: seq<real>, t: real): nat {
    if s == [] then 0 else CountFrom(Front(s), t) + if t <= Last(s) < t + 1.0 then 1 else 0
  }

  lemma {:induction false} CountAtMost(s: seq<real>, t: real, lo: nat)
    requires lo <= |s| && forall k :: 0 <= k < lo ==> s[k] < t
    ensures CountFrom(s, t) <= |s| - lo
  {
    if lo < |s| {
      CountAtMost(Front(s), t, lo);
    } else if s != [] {
      CountAtMost(Front(s), t, lo - 1);
    }
  }

  lemma {:induction false} SpacedCount(s: seq<real>, gap: int, t: real)
    requires gap >= 1 && Sorted(s) && Spaced(s, gap)
    ensures CountFrom(s, t) <= gap
  {
    if s != [] {
      var front := Front(s);
      assert Sorted(front) && Spaced(front, gap) by {
        forall k | 0 <= k < |front| && 0 <= k + gap < |front|
          ensures front[k + gap] - front[k] >= 1.0
        {
          assert s[k + gap] - s[k] >= 1.0;
        }
      }
      SpacedCount(front, gap, t);
      if t <= Last(s) < t + 1.0 {
        var lo := if |s| > gap then |s| - gap else 0;
        forall k | 0 <= k < lo
          ensures s[k] < t
        {
          assert s[lo - 1 + gap] - s[lo - 1] >= 1.0;
        }
        CountAtMost(s, t, lo);
      }
    }
  }

  /**
   * The rate bound, for any number of callers and any schedule: admission k + ceil(rps) comes at least
   * a second after admission k, and no half-open unit interval holds more than ceil(rps) admissions.
   */
  lemma RateBound(rps: real, start: real, turns: seq<real>, t: real)
    requires rps > 0.0
    ensures var admitted := Play(rps, start, turns).admitted;
            Spaced(admitted, Ceiling(rps)) && CountFrom(admitted, t) <= Ceiling(rps)
  {
    PlayKeeps(rps, start, turns);
    SpacedCount(Play(rps, start, turns).admitted, Ceiling(rps), t);
  }

  /** The window is a sorted suffix of the admissions, and holds every admission less than a second old. */
  lemma WindowIsRecent(rps: real, start: real, turns: seq<real>)
    requires rps > 0.0
    ensures var m := Play(rps, start, turns);
            && Sorted(m.window) && IsSuffix(m.window, m.admitted)
            && forall k :: 0 <= k < |m.admitted| && m.clock - m.admitted[k] < 1.0 ==> k >= |m.admitted| - |m.window|
  {
    PlayKeeps(rps, start, turns);
  }

  function Burst(start: real, n: nat): seq<real> {
    seq(n, _ => start)
  }

  lemma BurstTurn(rps: real, start: real, window: seq<real>)
    requires rps > 0.0 && |window| as real < rps && (window != [] ==> window[0] == start)
    ensures Next(rps, Machine(window, window, start), start)
         == Machine(window + [start], window + [start], start)
  {
    assert Pruned(window, start) == window;
  }

  lemma {:induction false} BurstAdmitted(rps: real, start: real, n: nat)
    requires rps > 0.0 && n <= Ceiling(rps)
    ensures Play(rps, start, Burst(start, n)) == Machine(Burst(start, n), Burst(start, n), start)
    decreases n
  {
    if n > 0 {
      var turns := Burst(start, n);
      assert Front(turns) == Burst(start, n - 1) && Last(turns) == start;
      BurstAdmitted(rps, start, n - 1);
      RoomBelowCeiling(rps, n - 1);
      BurstTurn(rps, start, Front(turns));
      assert turns == Front(turns) + [start];
    }
  }

  /**
   * The bound is attained: that many turns at one instant are all admitted, more than `rps` of them unless it is
   * whole.
   */
  lemma BoundAttained(rps: real, start: real)
    requires rps > 0.0
    ensures CountFrom(Play(rps, start, Burst(start, Ceiling(rps))).admitted, start) == Ceiling(rps)
    ensures Ceiling(rps) as real <= rps <==> rps.Floor as real == rps
  {
    BurstAdmitted(rps, start, Ceiling(rps));
    BurstCount(start, Ceiling(rps));
  }

  lemma {:induction false} BurstCount(start: real, n: nat)
    ensures CountFrom(Burst(start, n), start) == n
  {
    if n > 0 {
      assert Front(Burst(start, n)) == Burst(start, n - 1);
      BurstCount(start, n - 1);
    }
  }

  lemma HeadExpires(kept: seq<real>, later: real)
    requires kept != [] && later - kept[0] >= 1.0
    ensures |Pruned(kept, later)| < |kept|
  {
  }

  lemma RoomBelowCeiling(rps: real, held: nat)
    requires held < Ceiling(rps)
    ensures held as real < rps
  {
  }

  lemma SleptEnough(rps: real, window: seq<real>, now: real, later: real)
    requires rps > 0.0 && |Pruned(window, now)| <= Ceiling(rps)
    requires Judge(rps, window, now).Wait? && later >= now + Judge(rps, window, now).seconds
    ensures now < later && Judge(rps, Turned(rps, window, now), later).Admit?
  {
    var kept := Pruned(window, now);
    HeadExpires(kept, later);
    RoomBelowCeiling(rps, |Pruned(kept, later)|);
  }

  /** A caller told to wait is admitted at its next turn, if it sleeps as told and nobody is admitted meanwhile. */
  lemma WaitIsEnough(rps: real, start: real, turns: seq<real>, now: real, later: real)
    requires rps > 0.0 && Play(rps, start, turns).clock <= now
    requires var v := Judge(rps, Play(rps, start, turns).window, now); v.Wait? && later >= now + v.seconds
    ensures var m := Next(rps, Play(rps, start, turns), now);
            m.clock < later && Judge(rps, m.window, later).Admit?
  {
    PlayKeeps(rps, start, turns);
    SleptEnough(rps, Play(rps, start, turns).window, now, later);
  }

  /** How many of the times are less than a second old. */
  function Recent(s: seq<real>, now: real): nat {
    if s == [] then 0 else Recent(Front(s), now) + if now - Last(s) < 1.0 then 1 else 0
  }

  lemma {:induction false} NoneRecent(s: seq<real>, now: real)
    requires forall k :: 0 <= k < |s| ==> now - s[k] >= 1.0
    ensures Recent(s, now) == 0
  {
    if s != [] {
      NoneRecent(Front(s), now);
    }
  }

  lemma {:induction false} RecentSuffix(s: seq<real>, n: nat, now: real)
    requires n <= |s|
    requires forall k :: 0 <= k < |s| - n ==> now - s[k] >= 1.0
    requires forall k :: |s| - n <= k < |s| ==> now - s[k] < 1.0
    ensures Recent(s, now) == n
  {
    if n > 0 {
      RecentSuffix(Front(s), n - 1, now);
    } else {
      NoneRecent(s, now);
    }
  }

  /** A suffix that starts with the first time less than a second old holds exactly those. */
  lemma YoungSuffix(s: seq<real>, kept: seq<real>, now: real)
    requires Sorted(s) && IsSuffix(kept, s) && (kept != [] ==> now - kept[0] < 1.0)
    requires forall k :: 0 <= k < |s| - |kept| ==> now - s[k] >= 1.0
    ensures Recent(s, now) == |kept|
  {
    var gone := |s| - |kept|;
    forall k | gone <= k < |s|
      ensures now - s[k] < 1.0
    {
      assert s[gone] == kept[0] <= s[k];
    }
    RecentSuffix(s, |kept|, now);
  }

  /** After pruning, the window holds exactly the admissions less than a second old. */
  lemma PrunedIsRecent(n: int, m: Machine, now: real)
    requires Inv(n, m) && m.clock <= now
    ensures var kept := Pruned(m.window, now);
            |kept| == Recent(m.admitted, now) && (kept != [] ==> now - 1.0 < kept[0] <= now)
  {
    var kept := Pruned(m.window, now);
    PruneKeeps(n, m, kept, now);
    YoungSuffix(m.admitted, kept, now);
    if kept != [] {
      assert m.admitted[|m.admitted| - |kept|] == kept[0];
    }
  }

  /** The turn at `now` admits its caller. */
  ghost predicate AdmittedAt(rps: real, m: Machine, now: real)
    requires rps > 0.0
  {
    Next(rps, m, now).admitted == m.admitted + [now]
  }

  /**
   * In every schedule a turn admits its caller exactly if fewer than `rps` admissions are less than a second
   * old; and if not, it changes no admission.
   */
  lemma AdmitsExactly(rps: real, start: real, turns: seq<real>, now: real)
    requires rps > 0.0 && Play(rps, start, turns).clock <= now
    ensures var m := Play(rps, start, turns);
            && (Judge(rps, m.window, now).Admit? <==> Recent(m.admitted, now) as real < rps)
            && (AdmittedAt(rps, m, now) <==> Recent(m.admitted, now) as real < rps)
            && (!AdmittedAt(rps, m, now) ==> Next(rps, m, now).admitted == m.admitted)
  {
    PlayKeeps(rps, start, turns);
    PrunedIsRecent(Ceiling(rps), Play(rps, start, turns), now);
  }

  /**
   * A caller is told to sleep between a millisecond and a second, and neither too short nor too long: if nobody is
   * admitted meanwhile a turn from that moment on admits it, and, if that is more than the millisecond, no earlier one.
   */
  lemma WaitExactly(rps: real, start: real, turns: seq<real>, now: real, later: real)
    requires rps > 0.0 && Play(rps, start, turns).clock <= now <= later
    requires Judge(rps, Play(rps, start, turns).window, now).Wait?
    ensures var m := Play(rps, start, turns);
            var seconds, m' := Judge(rps, m.window, now).seconds, Next(rps, m, now);
            && 0.001 <= seconds <= 1.0
            && (later >= now + seconds ==> AdmittedAt(rps, m', later))
            && (later < now + seconds && seconds > 0.001 ==> !AdmittedAt(rps, m', later))
  {
    var m := Play(rps, start, turns);
    var v := Judge(rps, m.window, now);
    var m' := Next(rps, m, now);
    PlayKeeps(rps, start, turns);
    PrunedIsRecent(Ceiling(rps), m, now);
    assert m'.window == Pruned(m.window, now);
    if later >= now + v.seconds {
      WaitIsEnough(rps, start, turns, now, later);
    } else if v.seconds > 0.001 {
      assert later - m'.window[0] < 1.0;
    }
  }
}
