/** What FORK and JOIN do to the context, told from the branch ids and from what each branch adds to its input. */
module Forks {
  import opened Primitives
  import opened Contexts
  import opened Bytecode
  import opened Runs
  import opened Vm

  /**
   * Called under `nid` on a context that holds `data`, whatever else that context is, the stage returns it with
   * `patch` set in it; without a patch it raises or sends.
   */
  ghost predicate Does(w: World, nid: string, fn: Fn, data: Data, patch: Option<Data>) {
    forall c: Context :: c.data == data ==>
      match patch
      case Some(d) => w.call(nid, fn, c) == Returned(Ctx(data + d, c.written + d.Keys, c.name))
      case None => !w.call(nid, fn, c).Returned?
  }

  /** A branch comes through: it passes validation before and after, and returns. */
  ghost predicate ComesThrough(w: World, p: Program, nid: string, data: Data, patch: Option<Data>) {
    && patch.Some?
    && (nid in p.inputs ==> w.conforms(p.inputs[nid], data))
    && (nid in p.outputs ==> w.conforms(p.outputs[nid], data + patch.value))
  }

  /** Branches under different ids set a common key. */
  ghost predicate Collide(ids: seq<string>, patches: seq<Option<Data>>) {
    exists i, j, k :: Collision(ids, patches, i, j, k)
  }

  ghost predicate Collision(ids: seq<string>, patches: seq<Option<Data>>, i: int, j: int, k: Key) {
    && 0 <= i < j < |ids| == |patches| && ids[i] != ids[j]
    && patches[i].Some? && patches[j].Some? && k in patches[i].value && k in patches[j].value
  }

  /** The patches set one after the other, in branch order. */
  function Patched(base: Data, patches: seq<Option<Data>>): Data {
    if patches == [] then base
    else if Last(patches).None? then Patched(base, Front(patches))
    else Patched(base, Front(patches)) + Last(patches).value
  }

  function PatchedKeys(patches: seq<Option<Data>>): set<Key> {
    if patches == [] then {}
    else if Last(patches).None? then PatchedKeys(Front(patches))
    else PatchedKeys(Front(patches)) + Last(patches).value.Keys
  }

  /** The branches of a FORK and what each of them does to a context that holds `data`. */
  ghost predicate Branches(w: World, p: Program, ids: seq<string>, data: Data, patches: seq<Option<Data>>) {
    && |patches| == |ids|
    && forall i :: 0 <= i < |ids| ==> ids[i] in p.table && Does(w, ids[i], p.table[ids[i]], data, patches[i])
  }

  ghost predicate AllComeThrough(w: World, p: Program, ids: seq<string>, data: Data, patches: seq<Option<Data>>) {
    |patches| == |ids| && forall i :: 0 <= i < |ids| ==> ComesThrough(w, p, ids[i], data, patches[i])
  }

  /** What a branch hands to the merge. */
  ghost predicate BranchIs(c: Context, nid: string, data: Data, patch: Data) {
    c.data == data + patch && c.written == patch.Keys && c.name == nid
  }

  lemma BranchResultIs(w: World, p: Program, nid: string, ctx: Context, patch: Option<Data>)
    requires nid in p.table && Does(w, nid, p.table[nid], ctx.data, patch)
    ensures var r := BranchResult(w, p, nid, ctx);
            && (r.Some? <==> ComesThrough(w, p, nid, ctx.data, patch))
            && (r.Some? ==> BranchIs(r.value, nid, ctx.data, patch.value))
  {
    var c := Contexts.Fork(ctx, nid);
    assert c.data == ctx.data;
  }

  ghost predicate BranchesAre(cs: seq<Context>, ids: seq<string>, data: Data, patches: seq<Option<Data>>) {
    && |cs| == |ids| == |patches|
    && forall i :: 0 <= i < |cs| ==> patches[i].Some? && BranchIs(cs[i], ids[i], data, patches[i].value)
  }

  /** The merge of such branches, by their patches. */
  lemma {:induction false} OverlayIsPatched(base: Data, cs: seq<Context>, ids: seq<string>, patches: seq<Option<Data>>)
    requires BranchesAre(cs, ids, base, patches)
    ensures Overlay(base, cs) == Patched(base, patches) && WrittenBy(cs) == PatchedKeys(patches)
  {
    if cs != [] {
      OverlayIsPatched(base, Front(cs), Front(ids), Front(patches));
      assert Writes(Last(cs)) == Last(patches).value;
    }
  }

  lemma CollisionClashes(cs: seq<Context>, ids: seq<string>, data: Data, patches: seq<Option<Data>>,
                         i: int, j: int, k: Key)
    requires BranchesAre(cs, ids, data, patches) && Collision(ids, patches, i, j, k)
    ensures Clashes(cs, k)
  {
    assert BranchIs(cs[i], ids[i], data, patches[i].value) && BranchIs(cs[j], ids[j], data, patches[j].value);
  }

  lemma ClashCollides(cs: seq<Context>, ids: seq<string>, data: Data, patches: seq<Option<Data>>, k: Key)
    requires BranchesAre(cs, ids, data, patches) && Clashes(cs, k)
    ensures Collide(ids, patches)
  {
    var i, j :| 0 <= i < |cs| && 0 <= j < |cs|
                && k in cs[i].written && k in cs[j].written && cs[i].name != cs[j].name;
    assert BranchIs(cs[i], ids[i], data, patches[i].value) && BranchIs(cs[j], ids[j], data, patches[j].value);
    assert if i < j then Collision(ids, patches, i, j, k) else Collision(ids, patches, j, i, k);
  }

  lemma ClashIsCollision(cs: seq<Context>, ids: seq<string>, data: Data, patches: seq<Option<Data>>)
    requires BranchesAre(cs, ids, data, patches)
    ensures ClashFree(cs) <==> !Collide(ids, patches)
  {
    if i, j, k :| Collision(ids, patches, i, j, k) {
      CollisionClashes(cs, ids, data, patches, i, j, k);
    }
    if k :| Clashes(cs, k) {
      ClashCollides(cs, ids, data, patches, k);
    }
  }

  lemma ResultsAre(w: World, p: Program, ids: seq<string>, ctx: Context, patches: seq<Option<Data>>)
    requires Branches(w, p, ids, ctx.data, patches)
    ensures var rs := BranchResults(w, p, ids, ctx);
            && (AllSome(rs) <==> AllComeThrough(w, p, ids, ctx.data, patches))
            && (AllSome(rs) ==> BranchesAre(Values(rs), ids, ctx.data, patches))
  {
    forall i | 0 <= i < |ids|
      ensures var r := BranchResult(w, p, ids[i], ctx);
              && (r.Some? <==> ComesThrough(w, p, ids[i], ctx.data, patches[i]))
              && (r.Some? ==> BranchIs(r.value, ids[i], ctx.data, patches[i].value))
    {
      BranchResultIs(w, p, ids[i], ctx, patches[i]);
    }
  }

  /**
   * FORK and JOIN, told from ids and patches. A PARALLEL block fails if a branch does; else it conflicts exactly
   * if branches under different ids set a common key; else its context is the base with all patches set in branch
   * order, their keys written, its name kept. Without a JOIN, and for fire-and-forget, the context stays as it is.
   */
  lemma ForkMeans(w: World, p: Program, ids: seq<string>, mode: ForkMode, joins: bool, ctx: Context,
                  patches: seq<Option<Data>>)
    requires Branches(w, p, ids, ctx.data, patches)
    ensures Forked(w, p, ids, mode, joins, ctx) ==
            if mode.FireForget? then Ok(ctx)
            else if !AllComeThrough(w, p, ids, ctx.data, patches) then Err(BranchFailed)
            else if !joins then Ok(ctx)
            else if Collide(ids, patches) then Err(MergeFailed)
            else Ok(Ctx(Patched(ctx.data, patches), ctx.written + PatchedKeys(patches), ctx.name))
  {
    ResultsAre(w, p, ids, ctx, patches);
    var rs := BranchResults(w, p, ids, ctx);
    if AllSome(rs) {
      ClashIsCollision(Values(rs), ids, ctx.data, patches);
      OverlayIsPatched(ctx.data, Values(rs), ids, patches);
    }
  }
}
