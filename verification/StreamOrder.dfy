/** Stages that stream one after the other: the caller sees all their chunks in one order. */
module StreamOrder {
  import opened Primitives
  import opened Streams

  /** Every block is a stage on its own. */
  ghost predicate Sequential(plan: seq<Block>) {
    forall k :: 0 <= k < |plan| ==> plan[k].mode.Parallel? && |plan[k].branches| == 1
  }

  function Values(ts: seq<Tagged>): seq<Chunk> {
    if ts == [] then [] else Values(Front(ts)) + [Last(ts).chunk]
  }

  /** All chunks of the stages in order, up to and including a failing stage's. */
  ghost function Expected(plan: seq<Block>): seq<Chunk>
    requires Sequential(plan)
  {
    if plan == [] then []
    else if plan[0].branches[0].fails then plan[0].branches[0].chunks
    else plan[0].branches[0].chunks + Expected(plan[1..])
  }

  /** The chunks of the first `n` stages. */
  ghost function Prior(plan: seq<Block>, n: nat): seq<Chunk>
    requires Sequential(plan) && n <= |plan|
  {
    if n == 0 then [] else Prior(plan, n - 1) + plan[n - 1].branches[0].chunks
  }

  lemma {:induction false} PriorShift(plan: seq<Block>, n: nat)
    requires Sequential(plan) && 1 <= n <= |plan|
    ensures Prior(plan, n) == plan[0].branches[0].chunks + Prior(plan[1..], n - 1)
    decreases n
  {
    var first := plan[0].branches[0].chunks;
    if n == 1 {
      assert Prior(plan, 0) + first == first == first + [];
    } else {
      PriorShift(plan, n - 1);
      AppendAssoc(first, Prior(plan[1..], n - 2), plan[n - 1].branches[0].chunks);
    }
  }

  /** While no stage before `n` fails, what these stages have is a prefix of all; and all, if there are no others. */
  lemma {:induction false} PriorIsPrefix(plan: seq<Block>, n: nat)
    requires Sequential(plan) && n <= |plan| && forall k :: 0 <= k < n ==> Survives(plan[k])
    ensures n < |plan| ==> Prior(plan, n) + plan[n].branches[0].chunks <= Expected(plan)
    ensures n < |plan| && plan[n].branches[0].fails ==> Prior(plan, n) + plan[n].branches[0].chunks == Expected(plan)
    ensures n == |plan| ==> Prior(plan, n) == Expected(plan)
    decreases n
  {
    if n == 0 {
      if n < |plan| {
        assert [] + plan[0].branches[0].chunks == plan[0].branches[0].chunks;
      }
    } else {
      var first := plan[0].branches[0].chunks;
      assert !plan[0].branches[0].fails;
      PriorShift(plan, n);
      PriorIsPrefix(plan[1..], n - 1);
      if n < |plan| {
        AppendAssoc(first, Prior(plan[1..], n - 1), plan[n].branches[0].chunks);
      }
    }
  }

  /** What comes from each of the first `n` blocks, one after the other. */
  function ByBlock(ts: seq<Tagged>, n: nat): seq<Chunk> {
    if n == 0 then [] else ByBlock(ts, n - 1) + Of(ts, n - 1, 0)
  }

  ghost predicate InBlockOrder(ts: seq<Tagged>, n: nat) {
    && (forall j :: 0 <= j < |ts| ==> ts[j].block < n && ts[j].branch == 0)
    && forall j, l :: 0 <= j < l < |ts| ==> ts[j].block <= ts[l].block
  }

  lemma {:induction false} NoneBeyond(ts: seq<Tagged>, n: nat, k: nat)
    requires InBlockOrder(ts, n) && n <= k
    ensures Of(ts, k, 0) == []
  {
    if ts != [] {
      NoneBeyond(Front(ts), n, k);
    }
  }

  lemma {:induction false} ByBlockBeyond(ts: seq<Tagged>, m: nat, n: nat)
    requires InBlockOrder(ts, m) && m <= n
    ensures ByBlock(ts, n) == ByBlock(ts, m)
    decreases n
  {
    if m < n {
      ByBlockBeyond(ts, m, n - 1);
      NoneBeyond(ts, m, n - 1);
      assert ByBlock(ts, n - 1) + [] == ByBlock(ts, n - 1);
    }
  }

  lemma {:induction false} ByBlockBefore(ts: seq<Tagged>, t: Tagged, n: nat)
    requires n <= t.block
    ensures ByBlock(ts + [t], n) == ByBlock(ts, n)
  {
    if n > 0 {
      ByBlockBefore(ts, t, n - 1);
      OfAppend(ts, t, n - 1, 0);
      assert Of(ts, n - 1, 0) + [] == Of(ts, n - 1, 0);
    }
  }

  /** Chunks in block order are the blocks' chunks one after the other. */
  lemma {:induction false} ValuesByBlock(ts: seq<Tagged>, n: nat)
    requires InBlockOrder(ts, n)
    ensures Values(ts) == ByBlock(ts, n)
    decreases |ts|
  {
    if ts == [] {
      ByBlockBeyond(ts, 0, n);
    } else {
      var front, t := Front(ts), Last(ts);
      var b := t.block;
      assert ts == front + [t];
      assert InBlockOrder(front, b + 1) && InBlockOrder(ts, b + 1);
      ValuesByBlock(front, b + 1);
      ByBlockBeyond(ts, b + 1, n);
      ByBlockBefore(front, t, b);
      OfAppend(front, t, b, 0);
      AppendAssoc(ByBlock(front, b), Of(front, b, 0), [t.chunk]);
    }
  }

  lemma {:induction false} ByBlockIsPrior(plan: seq<Block>, ts: seq<Tagged>, n: nat)
    requires Sequential(plan) && n <= |plan| && forall k :: 0 <= k < n ==> BlockComplete(plan, ts, k)
    ensures ByBlock(ts, n) == Prior(plan, n)
    decreases n
  {
    if n > 0 {
      ByBlockIsPrior(plan, ts, n - 1);
      assert BlockComplete(plan, ts, n - 1) && Complete(plan, ts, n - 1, 0);
    }
  }

  lemma {:induction false} ValuesPrefix(ts: seq<Tagged>, all: seq<Tagged>)
    requires ts <= all
    ensures Values(ts) <= Values(all)
    decreases |all|
  {
    if |ts| < |all| {
      ValuesPrefix(ts, Front(all));
    } else {
      assert ts == all;
    }
  }

  lemma TagsInOrder(plan: seq<Block>, at: nat, ts: seq<Tagged>, n: nat)
    requires Sequential(plan) && TagsOk(plan, at, ts) && forall j :: 0 <= j < |ts| ==> ts[j].block < n
    ensures InBlockOrder(ts, n)
  {
  }

  /** With all stages before `n` complete, the values are theirs and what has come from stage `n`. */
  lemma ValuesUpTo(plan: seq<Block>, ts: seq<Tagged>, n: nat, next: nat)
    requires Sequential(plan) && n < |plan| && next == n + 1 && InBlockOrder(ts, next)
    requires forall k :: 0 <= k < n ==> BlockComplete(plan, ts, k)
    ensures Values(ts) == Prior(plan, n) + Of(ts, n, 0)
  {
    ValuesByBlock(ts, next);
    ByBlockIsPrior(plan, ts, n);
  }

  lemma AllInOrder(plan: seq<Block>, ts: seq<Tagged>, n: nat)
    requires Sequential(plan) && TagsOk(plan, n, ts) && n == |plan|
    requires forall k :: 0 <= k < n ==> Survives(plan[k]) && BlockComplete(plan, ts, k)
    ensures Values(ts) == Expected(plan)
  {
    TagsInOrder(plan, n, ts, n);
    ValuesByBlock(ts, n);
    ByBlockIsPrior(plan, ts, n);
    PriorIsPrefix(plan, n);
  }

  lemma SomeInOrder(plan: seq<Block>, ts: seq<Tagged>, n: nat)
    requires Sequential(plan) && n < |plan| && TagsOk(plan, |plan|, ts)
    requires forall j :: 0 <= j < |ts| ==> ts[j].block <= n
    requires forall k :: 0 <= k < n ==> Survives(plan[k]) && BlockComplete(plan, ts, k)
    requires Of(ts, n, 0) <= plan[n].branches[0].chunks
    ensures Values(ts) <= Expected(plan)
    ensures plan[n].branches[0].fails && Complete(plan, ts, n, 0) ==> Values(ts) == Expected(plan)
  {
    var next := n + 1;
    TagsInOrder(plan, |plan|, ts, next);
    ValuesUpTo(plan, ts, n, next);
    PriorIsPrefix(plan, n);
  }

  lemma FlowInOrder(plan: seq<Block>, s: State)
    requires Sequential(plan) && Inv(plan, s)
    ensures Values(Flowing(s)) <= Expected(plan)
  {
    var flow, n := Flowing(s), s.at;
    if n < |plan| {
      EmittedInOrder(plan, s, n, 0);
      SomeInOrder(plan, flow, n);
    } else {
      AllInOrder(plan, flow, n);
    }
  }

  lemma DeliveredInOrder(plan: seq<Block>, ts: seq<Tagged>)
    requires Sequential(plan) && Interleaved(plan, ts) && Delivered(plan, ts, AllSurvive(plan))
    ensures Values(ts) == Expected(plan)
  {
    if AllSurvive(plan) {
      AllInOrder(plan, ts, |plan|);
    } else {
      var n: nat, f: nat :| FailedAt(plan, ts, n, f);
      SomeInOrder(plan, ts, n);
    }
  }

  /**
   * When stages stream one after the other, the caller sees at every moment a prefix of all their chunks in
   * order, and in the end all of them: if one fails after some chunks, these too, before the error.
   */
  lemma StreamsInOrder(plan: seq<Block>, acts: seq<Act>)
    requires Sequential(plan) && Schedule(plan, acts)
    ensures var s := Play(plan, acts);
            && Values(s.yielded) <= Expected(plan)
            && (Stuck(plan, s) ==> Values(s.yielded) == Expected(plan) && s.reader == Returned(AllSurvive(plan)))
  {
    PlayKeeps(plan, acts);
    StreamDelivers(plan, acts);
    var s := Play(plan, acts);
    FlowInOrder(plan, s);
    ValuesPrefix(s.yielded, Flowing(s));
    if Stuck(plan, s) {
      DeliveredInOrder(plan, s.yielded);
    }
  }
}
