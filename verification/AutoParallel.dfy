/** Auto-parallelism is invisible: folding honest stages changes neither success nor the final context. */
module AutoParallel {
  import opened Primitives
  import opened Contexts
  import opened Bytecode
  import opened Folding
  import opened Lowering
  import opened TreeSemantics

  // ------------------------------------------------- what a declaration promises

  ghost predicate Agree(a: Data, b: Data, keys: set<Key>) {
    forall k | k in keys :: (k in a <==> k in b) && (k in a ==> a[k] == b[k])
  }

  /** What a stage writes when it runs on `data`; None if it raises or sends. */
  function Effect(w: World, nid: string, fn: Fn, data: Data): Option<Data> {
    match w.call(nid, fn, Ctx(data, {}, nid))
    case Returned(c) => Some(Writes(c))
    case _ => None
  }

  function Applied(c: Context, effect: Option<Data>): StageResult {
    if effect.None? then Raised else Returned(Updated(c, effect.value))
  }

  /**
   * The stage keeps its declaration: it returns its input plus some writes, all declared; what it
   * writes, and whether it raises, depends only on the declared reads; its schemas look at nothing else.
   */
  ghost predicate Honest(w: World, nid: string, fn: Fn) {
    var a := w.attrs(fn);
    && a.readKeys.Some? && a.writeKeys.Some?
    && (forall c: Context :: w.call(nid, fn, c) == Applied(c, Effect(w, nid, fn, c.data)))
    && (forall d :: Effect(w, nid, fn, d).Some? ==> Effect(w, nid, fn, d).value.Keys <= a.writeKeys.value)
    && (forall d, d' | Agree(d, d', a.readKeys.value) ::
          && Effect(w, nid, fn, d) == Effect(w, nid, fn, d')
          && Accepts(w, a.input, d) == Accepts(w, a.input, d'))
    && (forall d, d' | Agree(d, d', a.readKeys.value + a.writeKeys.value) ::
          Accepts(w, a.output, d) == Accepts(w, a.output, d'))
  }

  // ------------------------------------------------------------------ one group

  /** The writes of a stage that passes validation on both sides, run on `data`. */
  function StageEffect(w: World, nid: string, fn: Fn, data: Data): Option<Data> {
    var e := Effect(w, nid, fn, data);
    if Accepts(w, w.attrs(fn).input, data) && e.Some? && Accepts(w, w.attrs(fn).output, data + e.value) then e else None
  }

  /** Two walks agree on whether they stop and, if not, on the context and the pending route. */
  ghost predicate SameButTrace(a: Ran, b: Ran) {
    match (a, b)
    case (Ran(f), Ran(g)) => f.ctx == g.ctx && f.pending == g.pending
    case (Stopped(_, _), Stopped(_, _)) => true
    case _ => false
  }

  lemma HonestStage(w: World, nid: string, fn: Fn, f: Flow)
    requires Honest(w, nid, fn)
    ensures var e := StageEffect(w, nid, fn, f.ctx.data);
            match RunStage(w, nid, fn, f)
            case Ran(g) => e.Some? && g.ctx == Updated(f.ctx, e.value) && g.pending == f.pending
            case Stopped(_, _) => e.None?
  {
  }

  lemma HonestBranch(w: World, nid: string, fn: Fn, ctx: Context)
    requires Honest(w, nid, fn)
    ensures var e := StageEffect(w, nid, fn, ctx.data);
            RunBranch(w, nid, fn, ctx) == if e.Some? then Some(Updated(Contexts.Fork(ctx, nid), e.value)) else None
  {
  }

  /** Writes outside its declared keys do not change what an honest stage does. */
  lemma EffectStable(w: World, nid: string, fn: Fn, data: Data, other: Data)
    requires Honest(w, nid, fn)
    requires other.Keys !! w.attrs(fn).readKeys.value && other.Keys !! w.attrs(fn).writeKeys.value
    ensures StageEffect(w, nid, fn, data + other) == StageEffect(w, nid, fn, data)
  {
    var a := w.attrs(fn);
    assert Agree(data + other, data, a.readKeys.value);
    var e := Effect(w, nid, fn, data);
    if e.Some? {
      assert Agree(data + other + e.value, data + e.value, a.readKeys.value + a.writeKeys.value);
    }
  }

  ghost predicate HonestGroup(w: World, branches: seq<(string, Fn)>) {
    && (forall i :: 0 <= i < |branches| ==> Honest(w, branches[i].0, branches[i].1))
    && forall i, j :: 0 <= i < j < |branches| ==> Disjoint(w, branches[i].1, branches[j].1)
  }

  function StagesOf(branches: seq<(string, Fn)>): (r: seq<Simple>)
    ensures |r| == |branches|
    ensures forall i :: 0 <= i < |r| ==> r[i] == Stage(branches[i].0, branches[i].1)
  {
    if branches == [] then [] else [Stage(branches[0].0, branches[0].1)] + StagesOf(branches[1..])
  }

  lemma RestOfGroup(w: World, branches: seq<(string, Fn)>)
    requires branches != [] && HonestGroup(w, branches)
    ensures HonestGroup(w, branches[1..])
  {
    forall i | 0 <= i < |branches[1..]|
      ensures Honest(w, branches[1..][i].0, branches[1..][i].1)
    {
      assert branches[1..][i] == branches[i + 1];
    }
  }

  lemma OutOfSight(a: set<Key>, b: set<Key>, c: set<Key>)
    requires a <= b && b * c == {}
    ensures a !! c
  {
    forall k | k in a
      ensures k !in c
    {
      assert k in c ==> k in b * c;
    }
  }

  /** What the first stage of a group writes is out of sight of all the others. */
  lemma {:induction false} RestUnaffected(w: World, branches: seq<(string, Fn)>, i: nat, data: Data, e: Data)
    requires HonestGroup(w, branches) && 0 < i < |branches|
    requires e.Keys <= w.attrs(branches[0].1).writeKeys.value
    ensures StageEffect(w, branches[i].0, branches[i].1, data + e)
         == StageEffect(w, branches[i].0, branches[i].1, data)
  {
    assert Disjoint(w, branches[0].1, branches[i].1);
    var mine, his := w.attrs(branches[0].1), w.attrs(branches[i].1);
    OutOfSight(e.Keys, mine.writeKeys.value, his.readKeys.value);
    OutOfSight(e.Keys, mine.writeKeys.value, his.writeKeys.value);
    EffectStable(w, branches[i].0, branches[i].1, data, e);
  }

  /** Two runs of one branch succeed together and write the same. */
  ghost predicate BranchAgrees(w: World, branch: (string, Fn), c: Context, c': Context) {
    var a, b := RunBranch(w, branch.0, branch.1, c), RunBranch(w, branch.0, branch.1, c');
    a.Some? == b.Some? && (a.Some? ==> Writes(a.value) == Writes(b.value))
  }

  lemma HonestAgrees(w: World, nid: string, fn: Fn, c: Context, c': Context)
    requires Honest(w, nid, fn)
    requires StageEffect(w, nid, fn, c.data) == StageEffect(w, nid, fn, c'.data)
    ensures BranchAgrees(w, (nid, fn), c, c')
  {
    HonestBranch(w, nid, fn, c);
    HonestBranch(w, nid, fn, c');
    var e := StageEffect(w, nid, fn, c.data);
    if e.Some? {
      assert Writes(Updated(Contexts.Fork(c, nid), e.value)) == e.value;
      assert Writes(Updated(Contexts.Fork(c', nid), e.value)) == e.value;
    }
  }

  /** The branches of a group, forked from either context, make the same writes. */
  lemma SameWrites(w: World, branches: seq<(string, Fn)>, c: Context, c': Context)
    requires forall i :: 0 <= i < |branches| ==> BranchAgrees(w, branches[i], c, c')
    ensures var a, b := RunBranches(w, branches, c), RunBranches(w, branches, c');
            && a.Some? == b.Some?
            && (a.Some? ==> forall i :: 0 <= i < |branches| ==> Writes(a.value[i]) == Writes(b.value[i]))
  {
    BranchesPointwise(w, branches, c);
    BranchesPointwise(w, branches, c');
    var a, b := RunBranches(w, branches, c), RunBranches(w, branches, c');
    if a.Some? {
      forall i | 0 <= i < |branches|
        ensures RunBranch(w, branches[i].0, branches[i].1, c').Some?
      {
        assert BranchAgrees(w, branches[i], c, c');
      }
      forall i | 0 <= i < |branches|
        ensures Writes(a.value[i]) == Writes(b.value[i])
      {
        assert BranchAgrees(w, branches[i], c, c');
      }
    }
  }

  /** A merge depends on the branches only through what they wrote. */
  lemma {:induction false} MergeByWrites(base: Data, bs: seq<Context>, cs: seq<Context>)
    requires |bs| == |cs| && forall i :: 0 <= i < |bs| ==> Writes(bs[i]) == Writes(cs[i])
    ensures Overlay(base, bs) == Overlay(base, cs) && WrittenBy(bs) == WrittenBy(cs)
  {
    if bs != [] {
      MergeByWrites(base, Front(bs), Front(cs));
      assert Writes(Last(bs)).Keys == Last(bs).written && Writes(Last(cs)).Keys == Last(cs).written;
    }
  }

  /** Merging a first branch is updating the base with its writes. */
  lemma {:induction false} MergeFirst(base: Data, b: Context, bs: seq<Context>)
    ensures Overlay(base, [b] + bs) == Overlay(base + Writes(b), bs)
    ensures WrittenBy([b] + bs) == b.written + WrittenBy(bs)
  {
    if bs == [] {
      assert Front([b]) == [] && [b] + bs == [b];
    } else {
      MergeFirst(base, b, Front(bs));
      assert Front([b] + bs) == [b] + Front(bs) && Last([b] + bs) == Last(bs);
    }
  }

  /** The branches of a group never clash: they write disjoint keys. */
  lemma {:induction false} GroupResults(w: World, branches: seq<(string, Fn)>, ctx: Context)
    requires HonestGroup(w, branches) && RunBranches(w, branches, ctx).Some?
    ensures var rs := RunBranches(w, branches, ctx).value;
            forall i :: 0 <= i < |rs| ==> rs[i].written <= w.attrs(branches[i].1).writeKeys.value
  {
    if branches != [] {
      HonestBranch(w, branches[0].0, branches[0].1, ctx);
      RestOfGroup(w, branches);
      GroupResults(w, branches[1..], ctx);
    }
  }

  lemma GroupNeverClashes(w: World, branches: seq<(string, Fn)>, ctx: Context)
    requires HonestGroup(w, branches) && RunBranches(w, branches, ctx).Some?
    ensures ClashFree(RunBranches(w, branches, ctx).value)
  {
    var rs := RunBranches(w, branches, ctx).value;
    GroupResults(w, branches, ctx);
    forall i, j | 0 <= i < |rs| && 0 <= j < |rs| && i != j
      ensures rs[i].written !! rs[j].written
    {
      var a, b := w.attrs(branches[i].1).writeKeys.value, w.attrs(branches[j].1).writeKeys.value;
      assert a * b == {} by {
        assert if i < j then Disjoint(w, branches[i].1, branches[j].1) else Disjoint(w, branches[j].1, branches[i].1);
      }
      OutOfSight(rs[i].written, a, b);
    }
    DisjointNeverClash(rs);
  }

  lemma DisjointNeverClash(rs: seq<Context>)
    requires forall i, j :: 0 <= i < |rs| && 0 <= j < |rs| && i != j ==> rs[i].written !! rs[j].written
    ensures ClashFree(rs)
  {
    forall k
      ensures !Clashes(rs, k)
    {
    }
  }

  /** The merged outcome of a group, or None if a branch fails. */
  function GroupMerge(w: World, branches: seq<(string, Fn)>, ctx: Context): Option<Context> {
    var rs := RunBranches(w, branches, ctx);
    if rs.None? then None else Some(MergedContext(ctx, rs.value))
  }

  /** Peeling the first branch off a group: update the base with its writes, go on with the others. */
  lemma GroupMergeFirst(w: World, branches: seq<(string, Fn)>, ctx: Context)
    requires branches != [] && HonestGroup(w, branches)
    ensures var e := StageEffect(w, branches[0].0, branches[0].1, ctx.data);
            GroupMerge(w, branches, ctx)
            == if e.None? then None else GroupMerge(w, branches[1..], Updated(ctx, e.value))
  {
    var (nid, fn) := branches[0];
    var e := StageEffect(w, nid, fn, ctx.data);
    HonestBranch(w, nid, fn, ctx);
    if e.Some? {
      var c' := Updated(ctx, e.value);
      RestAgrees(w, branches, ctx, c', e.value);
      SameWrites(w, branches[1..], ctx, c');
      assert Writes(Updated(Contexts.Fork(ctx, nid), e.value)) == e.value;
      MergePeeled(w, branches, ctx, e.value);
    }
  }

  lemma OneAgrees(w: World, branches: seq<(string, Fn)>, i: nat, nid: string, fn: Fn, c: Context, c': Context, e: Data)
    requires HonestGroup(w, branches) && 0 < i < |branches| && branches[i] == (nid, fn) && c'.data == c.data + e
    requires e.Keys <= w.attrs(branches[0].1).writeKeys.value
    ensures BranchAgrees(w, (nid, fn), c, c')
  {
    RestUnaffected(w, branches, i, c.data, e);
    assert Honest(w, branches[i].0, branches[i].1);
    HonestAgrees(w, nid, fn, c, c');
  }

  lemma RestAgrees(w: World, branches: seq<(string, Fn)>, c: Context, c': Context, e: Data)
    requires branches != [] && HonestGroup(w, branches) && c'.data == c.data + e
    requires e.Keys <= w.attrs(branches[0].1).writeKeys.value
    ensures forall i :: 0 <= i < |branches[1..]| ==> BranchAgrees(w, branches[1..][i], c, c')
  {
    forall i | 0 <= i < |branches[1..]|
      ensures BranchAgrees(w, branches[1..][i], c, c')
    {
      OneAgrees(w, branches, i + 1, branches[i + 1].0, branches[i + 1].1, c, c', e);
    }
  }

  lemma MergePeeled(w: World, branches: seq<(string, Fn)>, ctx: Context, e: Data)
    requires branches != []
    requires var (nid, fn) := branches[0];
             RunBranch(w, nid, fn, ctx) == Some(Updated(Contexts.Fork(ctx, nid), e))
             && Writes(Updated(Contexts.Fork(ctx, nid), e)) == e
    requires var a, b := RunBranches(w, branches[1..], ctx), RunBranches(w, branches[1..], Updated(ctx, e));
             && a.Some? == b.Some?
             && (a.Some? ==> forall i :: 0 <= i < |branches[1..]| ==> Writes(a.value[i]) == Writes(b.value[i]))
    ensures GroupMerge(w, branches, ctx) == GroupMerge(w, branches[1..], Updated(ctx, e))
  {
    var a, b := RunBranches(w, branches[1..], ctx), RunBranches(w, branches[1..], Updated(ctx, e));
    if a.Some? {
      MergedFirst(ctx, Updated(Contexts.Fork(ctx, branches[0].0), e), e, a.value, b.value);
    }
  }

  lemma MergedFirst(ctx: Context, first: Context, e: Data, bs: seq<Context>, cs: seq<Context>)
    requires Writes(first) == e
    requires |bs| == |cs| && forall i :: 0 <= i < |bs| ==> Writes(bs[i]) == Writes(cs[i])
    ensures MergedContext(ctx, [first] + bs) == MergedContext(Updated(ctx, e), cs)
  {
    MergeFirst(ctx.data, first, bs);
    MergeByWrites(ctx.data + e, bs, cs);
    assert first.written == e.Keys;
  }

  /**
   * Fold soundness for one group of any size: running the stages one after the other and forking them
   * all from the base and merging stop together, and otherwise give the same context.
   */
  lemma {:induction false} GroupSound(w: World, branches: seq<(string, Fn)>, f: Flow, g: Flow)
    requires HonestGroup(w, branches) && f.ctx == g.ctx && f.pending == g.pending
    ensures SameButTrace(RunBody(w, StagesOf(branches), f), RunBlock(w, branches, Parallel, g))
    ensures RunBody(w, StagesOf(branches), f).Ran? ==>
              && GroupMerge(w, branches, f.ctx) == Some(RunBody(w, StagesOf(branches), f).flow.ctx)
              && RunBody(w, StagesOf(branches), f).flow.pending == f.pending
    ensures RunBody(w, StagesOf(branches), f).Stopped? ==> GroupMerge(w, branches, f.ctx).None?
    decreases |branches|
  {
    if branches == [] {
      assert MergedContext(f.ctx, []) == f.ctx;
    } else {
      var (nid, fn) := branches[0];
      HonestStage(w, nid, fn, f);
      GroupMergeFirst(w, branches, f.ctx);
      RestOfGroup(w, branches);
      assert StagesOf(branches)[1..] == StagesOf(branches[1..]);
      var first := RunStage(w, nid, fn, f);
      if first.Ran? {
        GroupSound(w, branches[1..], first.flow, first.flow);
      }
    }
    if RunBranches(w, branches, g.ctx).Some? {
      GroupNeverClashes(w, branches, g.ctx);
    }
  }
}
