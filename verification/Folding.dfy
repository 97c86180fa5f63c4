/** Source nodes, and `_auto_parallelize`: folding independent neighbours into implicit Parallel blocks. */
module Folding {
  import opened Primitives
  import opened Bytecode
  import opened Contexts

  /** A route body: a list (or another Pipeline's nodes), or a single node. */
  datatype Body = ListBody(nodes: seq<Node>) | SingleBody(node: Node)

  /** A pipeline node. Any object that is neither a Parallel nor a dict is taken for a stage. */
  datatype Node =
    | StageNode(fn: Fn)
    | ParallelNode(branches: seq<Fn>, mode: ForkMode)
    | RouteDict(routes: seq<(string, Body)>)

  datatype CompileError =
    | RouteDictWithoutRouter
    | EmptyRouteBody(route: string)
    | NotAStage
    | WriteConflict
    | UndeclaredSide // the TypeError of `&` between a declared set and None

  function Unwrap(body: Body): seq<Node> {
    match body
    case ListBody(nodes) => nodes
    case SingleBody(node) => [node]
  }

  /** `not s` in Python: None and the empty set alike. */
  predicate Falsy(s: Option<set<Key>>) {
    s.None? || s.value == {}
  }

  /** `bool(a & b)`, which raises TypeError when a side is None. */
  function Overlaps(a: Option<set<Key>>, b: Option<set<Key>>): Result<bool, CompileError> {
    if a.None? || b.None? then Err(UndeclaredSide)
    else Ok(a.value * b.value != {})
  }

  /** The tests one member of a group makes against a candidate. */
  function IndependentOf(w: World, existing: Fn, candidate: Fn): Result<bool, CompileError> {
    var e, c := w.attrs(existing), w.attrs(candidate);
    if Falsy(e.readKeys) && Falsy(e.writeKeys) then Ok(false)
    else
      var writesRead :- Overlaps(e.writeKeys, c.readKeys);
      if writesRead then Ok(false)
      else
        var readsWritten :- Overlaps(c.writeKeys, e.readKeys);
        if readsWritten then Ok(false)
        else
          var writesWritten :- Overlaps(e.writeKeys, c.writeKeys);
          Ok(!writesWritten)
  }

  function IndependentOfAll(w: World, group: seq<Fn>, candidate: Fn): Result<bool, CompileError> {
    if group == [] then Ok(true)
    else
      var first :- IndependentOf(w, group[0], candidate);
      if first then IndependentOfAll(w, group[1..], candidate) else Ok(false)
  }

  function Independent(w: World, group: seq<Fn>, candidate: Fn): Result<bool, CompileError> {
    var c := w.attrs(candidate);
    if Falsy(c.readKeys) && Falsy(c.writeKeys) then Ok(false)
    else IndependentOfAll(w, group, candidate)
  }

  /** The node at `i` is a stage, and not the router of a dict that follows it. */
  predicate Foldable(nodes: seq<Node>, i: nat) {
    i < |nodes| && nodes[i].StageNode? && !(i + 1 < |nodes| && nodes[i + 1].RouteDict?)
  }

  predicate AllFoldable(nodes: seq<Node>, n: nat) {
    forall i: nat :: i < n ==> Foldable(nodes, i)
  }

  function Fns(nodes: seq<Node>, n: nat): (fns: seq<Fn>)
    requires AllFoldable(nodes, n)
    ensures |fns| == n <= |nodes|
    ensures forall i :: 0 <= i < n ==> nodes[i] == StageNode(fns[i])
  {
    if n == 0 then []
    else
      assert Foldable(nodes, n - 1);
      Fns(nodes, n - 1) + [nodes[n - 1].fn]
  }

  /** How far the group starting at node 0 and now of length `n` extends. */
  function GroupLength(w: World, nodes: seq<Node>, n: nat): (r: Result<nat, CompileError>)
    requires 1 <= n && AllFoldable(nodes, n)
    ensures r.Ok? ==> n <= r.value <= |nodes| && AllFoldable(nodes, r.value)
    decreases |nodes| - n
  {
    assert Foldable(nodes, n - 1);
    if !Foldable(nodes, n) then Ok(n)
    else
      var more :- Independent(w, Fns(nodes, n), nodes[n].fn);
      if more then GroupLength(w, nodes, n + 1) else Ok(n)
  }

  /** `_auto_parallelize`. */
  function Fold(w: World, nodes: seq<Node>): Result<seq<Node>, CompileError> {
    if nodes == [] then Ok([])
    else if !Foldable(nodes, 0) then
      var rest :- Fold(w, nodes[1..]);
      Ok([nodes[0]] + rest)
    else
      var n :- GroupLength(w, nodes, 1);
      if n > 1 then
        var rest :- Fold(w, nodes[n..]);
        Ok([ParallelNode(Fns(nodes, n), Parallel)] + rest)
      else
        var rest :- Fold(w, nodes[1..]);
        Ok([nodes[0]] + rest)
  }

  // ------------------------------------------------------- what folding guarantees

  /** Both sides are declared, and neither stage writes what the other reads or writes. */
  ghost predicate Disjoint(w: World, f: Fn, g: Fn) {
    var a, b := w.attrs(f), w.attrs(g);
    && a.readKeys.Some? && a.writeKeys.Some? && b.readKeys.Some? && b.writeKeys.Some?
    && a.writeKeys.value * b.readKeys.value == {}
    && b.writeKeys.value * a.readKeys.value == {}
    && a.writeKeys.value * b.writeKeys.value == {}
  }

  /** At least one side names a key; an empty set counts as undeclared. */
  ghost predicate Declared(w: World, f: Fn) {
    var a := w.attrs(f);
    (a.readKeys.Some? && a.readKeys.value != {}) || (a.writeKeys.Some? && a.writeKeys.value != {})
  }

  /** A stage, and no router: no dict stands right behind it. */
  ghost predicate LoneStage(nodes: seq<Node>, i: nat) {
    i < |nodes| && nodes[i].StageNode? && (i + 1 == |nodes| || !nodes[i + 1].RouteDict?)
  }

  ghost predicate PairwiseDisjoint(w: World, fns: seq<Fn>) {
    forall i, j :: 0 <= i < j < |fns| ==> Disjoint(w, fns[i], fns[j])
  }

  /**
   * `out` is `nodes` with some runs of neighbouring stages replaced by one Parallel block each: order
   * kept, nothing lost or added, every run at least two stages long and pairwise disjoint, no router
   * taken away from its dict.
   */
  ghost predicate Grouped(w: World, nodes: seq<Node>, out: seq<Node>)
    decreases |out|
  {
    if out == [] then nodes == []
    else
      || (nodes != [] && out[0] == nodes[0] && Grouped(w, nodes[1..], out[1..]))
      || (out[0].ParallelNode? && out[0].mode.Parallel?
          && GroupAt(w, nodes, out[0].branches) && Grouped(w, nodes[|out[0].branches|..], out[1..]))
  }

  ghost predicate GroupAt(w: World, nodes: seq<Node>, fns: seq<Fn>) {
    && 2 <= |fns| <= |nodes|
    && (forall i :: 0 <= i < |fns| ==> LoneStage(nodes, i) && nodes[i].fn == fns[i])
    && PairwiseDisjoint(w, fns)
    && forall i :: 0 <= i < |fns| ==> Declared(w, fns[i])
  }

  lemma OverlapsMeaning(w: World, e: Fn, c: Fn)
    requires IndependentOf(w, e, c) == Ok(true)
    ensures Disjoint(w, e, c) && Declared(w, e)
  {
    var a, b := w.attrs(e), w.attrs(c);
    assert a.writeKeys.value * b.readKeys.value == {};
    assert b.writeKeys.value * a.readKeys.value == {};
    assert a.writeKeys.value * b.writeKeys.value == {};
  }

  lemma {:induction false} IndependentIsDisjoint(w: World, group: seq<Fn>, candidate: Fn)
    requires IndependentOfAll(w, group, candidate) == Ok(true)
    ensures forall i :: 0 <= i < |group| ==> Disjoint(w, group[i], candidate) && Declared(w, group[i])
  {
    if group != [] {
      IndependentIsDisjoint(w, group[1..], candidate);
      forall i | 0 <= i < |group|
        ensures Disjoint(w, group[i], candidate) && Declared(w, group[i])
      {
        if i > 0 {
          assert group[i] == group[1..][i - 1];
        } else {
          OverlapsMeaning(w, group[0], candidate);
        }
      }
    }
  }

  lemma GroupGrows(w: World, fns: seq<Fn>, fn: Fn)
    requires fns != [] && PairwiseDisjoint(w, fns) && Declared(w, fn)
    requires forall i :: 0 <= i < |fns| ==> Disjoint(w, fns[i], fn) && Declared(w, fns[i])
    ensures PairwiseDisjoint(w, fns + [fn]) && forall i :: 0 <= i < |fns + [fn]| ==> Declared(w, (fns + [fn])[i])
  {
  }

  lemma {:induction false} GroupIsDisjoint(w: World, nodes: seq<Node>, n: nat)
    requires 1 <= n && AllFoldable(nodes, n)
    requires PairwiseDisjoint(w, Fns(nodes, n))
    requires n > 1 ==> forall i :: 0 <= i < n ==> Declared(w, Fns(nodes, n)[i])
    requires GroupLength(w, nodes, n).Ok?
    ensures PairwiseDisjoint(w, Fns(nodes, GroupLength(w, nodes, n).value))
    ensures GroupLength(w, nodes, n).value > 1 ==>
              forall i :: 0 <= i < GroupLength(w, nodes, n).value ==>
                Declared(w, Fns(nodes, GroupLength(w, nodes, n).value)[i])
    decreases |nodes| - n
  {
    if Foldable(nodes, n) && Independent(w, Fns(nodes, n), nodes[n].fn) == Ok(true) {
      IndependentIsDisjoint(w, Fns(nodes, n), nodes[n].fn);
      assert Fns(nodes, n + 1) == Fns(nodes, n) + [nodes[n].fn];
      GroupGrows(w, Fns(nodes, n), nodes[n].fn);
      GroupIsDisjoint(w, nodes, n + 1);
    }
  }

  lemma AllLoneStages(nodes: seq<Node>, n: nat)
    requires AllFoldable(nodes, n)
    ensures forall i :: 0 <= i < n ==> LoneStage(nodes, i) && nodes[i].fn == Fns(nodes, n)[i]
  {
    forall i | 0 <= i < n
      ensures LoneStage(nodes, i)
    {
      assert Foldable(nodes, i);
    }
  }

  /** Folding is an order-preserving partition into groups of pairwise disjoint stages. */
  lemma {:induction false} FoldGroups(w: World, nodes: seq<Node>)
    requires Fold(w, nodes).Ok?
    ensures Grouped(w, nodes, Fold(w, nodes).value)
    decreases |nodes|
  {
    if nodes != [] {
      var out := Fold(w, nodes).value;
      if Foldable(nodes, 0) && GroupLength(w, nodes, 1).value > 1 {
        var n := GroupLength(w, nodes, 1).value;
        GroupIsDisjoint(w, nodes, 1);
        FoldGroups(w, nodes[n..]);
        assert out[1..] == Fold(w, nodes[n..]).value;
        AllLoneStages(nodes, n);
        assert GroupAt(w, nodes, out[0].branches);
      } else {
        FoldGroups(w, nodes[1..]);
        assert out[1..] == Fold(w, nodes[1..]).value;
      }
    }
  }

  function StageNodes(fns: seq<Fn>): (r: seq<Node>)
    ensures |r| == |fns|
    ensures forall i :: 0 <= i < |fns| ==> r[i] == StageNode(fns[i])
  {
    if fns == [] then [] else [StageNode(fns[0])] + StageNodes(fns[1..])
  }

  /** The list with the marked Parallel blocks replaced by their stages, and nothing else touched. */
  function Unfolded(out: seq<Node>, isNew: seq<bool>): seq<Node>
    requires |isNew| == |out|
  {
    if out == [] then []
    else
      (if isNew[0] && out[0].ParallelNode? then StageNodes(out[0].branches) else [out[0]])
      + Unfolded(out[1..], isNew[1..])
  }

  /** A block that folding may have made: at least two declared, pairwise disjoint stages. */
  ghost predicate NewGroup(w: World, node: Node) {
    && node.ParallelNode? && node.mode.Parallel? && 2 <= |node.branches|
    && PairwiseDisjoint(w, node.branches) && forall i :: 0 <= i < |node.branches| ==> Declared(w, node.branches[i])
  }

  /** Only new groups are marked. */
  ghost predicate MarksGroups(w: World, out: seq<Node>, isNew: seq<bool>) {
    |isNew| == |out| && forall i :: 0 <= i < |out| && isNew[i] ==> NewGroup(w, out[i])
  }

  lemma UnfoldFirst(out: seq<Node>, mark: bool, rest: seq<bool>)
    requires |out| == 1 + |rest|
    ensures Unfolded(out, [mark] + rest)
         == (if mark && out[0].ParallelNode? then StageNodes(out[0].branches) else [out[0]]) + Unfolded(out[1..], rest)
  {
    assert ([mark] + rest)[1..] == rest;
  }

  lemma MarkFirst(w: World, out: seq<Node>, mark: bool, rest: seq<bool>)
    requires out != [] && MarksGroups(w, out[1..], rest) && (mark ==> NewGroup(w, out[0]))
    ensures MarksGroups(w, out, [mark] + rest)
  {
    forall i | 0 <= i < |out| && ([mark] + rest)[i]
      ensures NewGroup(w, out[i])
    {
      assert i > 0 ==> out[i] == out[1..][i - 1];
    }
  }

  /** Taking the new groups apart gives the input list back; the user's own Parallel blocks stay as they are. */
  lemma {:induction false} FoldFlattens(w: World, nodes: seq<Node>, out: seq<Node>) returns (isNew: seq<bool>)
    requires Grouped(w, nodes, out)
    ensures MarksGroups(w, out, isNew) && Unfolded(out, isNew) == nodes
    decreases |out|
  {
    isNew := [];
    if out != [] {
      if nodes != [] && out[0] == nodes[0] && Grouped(w, nodes[1..], out[1..]) {
        var rest := FoldFlattens(w, nodes[1..], out[1..]);
        isNew := [false] + rest;
        MarkFirst(w, out, false, rest);
        UnfoldFirst(out, false, rest);
        assert nodes == [nodes[0]] + nodes[1..];
      } else {
        var fns := out[0].branches;
        var n := |fns|;
        var rest := FoldFlattens(w, nodes[n..], out[1..]);
        isNew := [true] + rest;
        MarkFirst(w, out, true, rest);
        UnfoldFirst(out, true, rest);
        StagesAhead(nodes, fns);
      }
    }
  }

  lemma StagesAhead(nodes: seq<Node>, fns: seq<Fn>)
    requires |fns| <= |nodes| && forall i :: 0 <= i < |fns| ==> nodes[i] == StageNode(fns[i])
    ensures nodes == StageNodes(fns) + nodes[|fns|..]
  {
  }

  /** Where the output does not go on with the input's next node, it goes on with a group. */
  lemma GroupComesNext(w: World, nodes: seq<Node>, out: seq<Node>)
    requires Grouped(w, nodes, out) && out != []
    requires !(nodes != [] && out[0] == nodes[0] && Grouped(w, nodes[1..], out[1..]))
    ensures out[0].ParallelNode? && 2 <= |out[0].branches| <= |nodes|
    ensures LoneStage(nodes, |out[0].branches| - 1) && Grouped(w, nodes[|out[0].branches|..], out[1..])
  {
    assert GroupAt(w, nodes, out[0].branches);
  }

  /** No dict stands right behind a group. */
  lemma DictBehindGroup(nodes: seq<Node>, n: nat, j: nat)
    requires 0 < n <= |nodes| && LoneStage(nodes, n - 1) && j < |nodes[n..]| && nodes[n..][j].RouteDict?
    ensures j > 0 && nodes[n + j] == nodes[n..][j] && nodes[n + j - 1] == nodes[n..][j - 1]
  {
  }

  /** A dict keeps its immediate predecessor. */
  lemma {:induction false} DictKeepsRouter(w: World, nodes: seq<Node>, out: seq<Node>, i: nat) returns (j: nat)
    requires Grouped(w, nodes, out) && i < |out| && out[i].RouteDict?
    ensures j < |nodes| && nodes[j] == out[i]
    ensures if i == 0 then j == 0 else 0 < j && nodes[j - 1] == out[i - 1]
    decreases |out|
  {
    if nodes != [] && out[0] == nodes[0] && Grouped(w, nodes[1..], out[1..]) {
      if i == 0 {
        j := 0;
      } else {
        j := DictKeepsRouter(w, nodes[1..], out[1..], i - 1);
        j := j + 1;
      }
    } else {
      var n := |out[0].branches|;
      GroupComesNext(w, nodes, out);
      j := DictKeepsRouter(w, nodes[n..], out[1..], i - 1);
      DictBehindGroup(nodes, n, j);
      j := j + n;
    }
  }

  // ------------------------------------------------- when folding raises TypeError

  ghost predicate BothOrNeither(w: World, fn: Fn) {
    w.attrs(fn).readKeys.Some? <==> w.attrs(fn).writeKeys.Some?
  }

  lemma {:induction false} IndependentTotal(w: World, group: seq<Fn>, candidate: Fn)
    requires Declared(w, candidate) && BothOrNeither(w, candidate)
    requires forall i :: 0 <= i < |group| ==> BothOrNeither(w, group[i])
    ensures IndependentOfAll(w, group, candidate).Ok?
  {
    if group != [] {
      IndependentTotal(w, group[1..], candidate);
    }
  }

  lemma {:induction false} GroupLengthTotal(w: World, nodes: seq<Node>, n: nat)
    requires 1 <= n && AllFoldable(nodes, n)
    requires forall i :: 0 <= i < |nodes| && nodes[i].StageNode? ==> BothOrNeither(w, nodes[i].fn)
    ensures GroupLength(w, nodes, n).Ok?
    decreases |nodes| - n
  {
    if Foldable(nodes, n) {
      if Declared(w, nodes[n].fn) {
        forall i | 0 <= i < n
          ensures BothOrNeither(w, Fns(nodes, n)[i])
        {
          assert Foldable(nodes, i);
        }
        IndependentTotal(w, Fns(nodes, n), nodes[n].fn);
      }
      if Independent(w, Fns(nodes, n), nodes[n].fn) == Ok(true) {
        GroupLengthTotal(w, nodes, n + 1);
      }
    }
  }

  /** Declaring both sides or neither on every stage rules the TypeError out. */
  lemma {:induction false} FoldTotal(w: World, nodes: seq<Node>)
    requires forall i :: 0 <= i < |nodes| && nodes[i].StageNode? ==> BothOrNeither(w, nodes[i].fn)
    ensures Fold(w, nodes).Ok?
    decreases |nodes|
  {
    if nodes != [] {
      if Foldable(nodes, 0) {
        GroupLengthTotal(w, nodes, 1);
        FoldTotal(w, nodes[GroupLength(w, nodes, 1).value..]);
      }
      FoldTotal(w, nodes[1..]);
    }
  }

  /**
   * Testing candidate `c` against member `e` meets an `&` with an undeclared side before it finds an
   * overlap: the three intersections are taken in this order, and the first non-empty one ends the test.
   */
  ghost predicate Trips(w: World, e: Fn, c: Fn) {
    var a, b := w.attrs(e), w.attrs(c);
    || a.writeKeys.None? || b.readKeys.None?
    || (a.writeKeys.value * b.readKeys.value == {} && (b.writeKeys.None? || a.readKeys.None?))
  }

  ghost predicate Fits(w: World, e: Fn, c: Fn) {
    Declared(w, e) && Disjoint(w, e, c)
  }

  /** The stage at `j` joins the group of its neighbours from `i` on. */
  ghost predicate Joins(w: World, nodes: seq<Node>, i: nat, j: nat) {
    && i < j && LoneStage(nodes, j) && Declared(w, nodes[j].fn)
    && forall k :: i <= k < j ==> nodes[k].StageNode? && Fits(w, nodes[k].fn, nodes[j].fn)
  }

  /** The end of the maximal run of joining stages, from `j` on, of the group that starts at `i`. */
  ghost function RunEnd(w: World, nodes: seq<Node>, i: nat, j: nat): (e: nat)
    requires i < j <= |nodes|
    ensures j <= e <= |nodes| && !Joins(w, nodes, i, e) && forall k :: j <= k < e ==> Joins(w, nodes, i, k)
    decreases |nodes| - j
  {
    if Joins(w, nodes, i, j) then RunEnd(w, nodes, i, j + 1) else j
  }

  /** Where the next group starts: behind the run, or behind a node that never folds. */
  ghost function NextStart(w: World, nodes: seq<Node>, i: nat): (e: nat)
    requires i < |nodes|
    ensures i < e <= |nodes|
  {
    if LoneStage(nodes, i) then RunEnd(w, nodes, i, i + 1) else i + 1
  }

  /** Going from group to group, `i` comes to be the start of one. */
  ghost predicate StartsAfter(w: World, nodes: seq<Node>, h: nat, i: nat)
    decreases |nodes| - h
  {
    h == i || (h < i && h < |nodes| && StartsAfter(w, nodes, NextStart(w, nodes, h), i))
  }

  ghost predicate Starts(w: World, nodes: seq<Node>, i: nat) {
    StartsAfter(w, nodes, 0, i)
  }

  /** The candidate at `j` trips over a member of the group from `i` on, before it overlaps with an earlier one. */
  ghost predicate TripsAt(w: World, nodes: seq<Node>, i: nat, j: nat) {
    && LoneStage(nodes, j) && Declared(w, nodes[j].fn)
    && exists m :: i <= m < j && TripsOver(w, nodes, i, j, m)
  }

  ghost predicate TripsOver(w: World, nodes: seq<Node>, i: nat, j: nat, m: nat)
    requires j < |nodes| && nodes[j].StageNode? && i <= m < j
  {
    && (forall k :: i <= k < m ==> nodes[k].StageNode? && Fits(w, nodes[k].fn, nodes[j].fn))
    && nodes[m].StageNode? && Declared(w, nodes[m].fn) && Trips(w, nodes[m].fn, nodes[j].fn)
  }

  /** The candidate behind the run that starts at `i` trips. */
  ghost predicate TripsFrom(w: World, nodes: seq<Node>, i: nat) {
    LoneStage(nodes, i) && TripsAt(w, nodes, i, NextStart(w, nodes, i))
  }

  /** Read off the declarations alone: no group has a candidate that trips. */
  ghost predicate NeverTrips(w: World, nodes: seq<Node>) {
    forall i :: 0 <= i < |nodes| && Starts(w, nodes, i) ==> !TripsFrom(w, nodes, i)
  }

  lemma PairExactly(w: World, e: Fn, c: Fn)
    ensures IndependentOf(w, e, c) == Ok(true) <==> Fits(w, e, c)
    ensures IndependentOf(w, e, c).Err? <==> Declared(w, e) && Trips(w, e, c)
    ensures IndependentOf(w, e, c).Err? ==> IndependentOf(w, e, c).error == UndeclaredSide
  {
  }

  /** A candidate that fits the first member trips over the group exactly if it trips over the others. */
  lemma TripsBehind(w: World, nodes: seq<Node>, j: nat, m: nat, next: nat)
    requires m < j < |nodes| && nodes[m].StageNode? && nodes[j].StageNode? && Fits(w, nodes[m].fn, nodes[j].fn)
    requires next == m + 1
    ensures (exists q :: m <= q < j && TripsOver(w, nodes, m, j, q))
       <==> (exists q :: next <= q < j && TripsOver(w, nodes, next, j, q))
  {
    if q :| m <= q < j && TripsOver(w, nodes, m, j, q) {
      assert TripsOver(w, nodes, next, j, q);
    }
    if q :| next <= q < j && TripsOver(w, nodes, next, j, q) {
      assert TripsOver(w, nodes, m, j, q);
    }
  }

  /** Testing the candidate at `j` against the group of its neighbours from `m` on. */
  lemma {:induction false} GroupExactly(w: World, nodes: seq<Node>, j: nat, m: nat, group: seq<Fn>)
    requires m <= j < |nodes| && nodes[j].StageNode? && |group| == j - m
    requires forall k :: m <= k < j ==> nodes[k] == StageNode(group[k - m])
    ensures var r := IndependentOfAll(w, group, nodes[j].fn);
            && (r == Ok(true) <==> forall k :: m <= k < j ==> Fits(w, nodes[k].fn, nodes[j].fn))
            && (r.Err? <==> exists q :: m <= q < j && TripsOver(w, nodes, m, j, q))
            && (r.Err? ==> r.error == UndeclaredSide)
    decreases j - m
  {
    if m < j {
      var r, rest := IndependentOfAll(w, group, nodes[j].fn), IndependentOfAll(w, group[1..], nodes[j].fn);
      var e := nodes[m].fn;
      PairExactly(w, e, nodes[j].fn);
      GroupExactly(w, nodes, j, m + 1, group[1..]);
      if Fits(w, e, nodes[j].fn) {
        TripsBehind(w, nodes, j, m, m + 1);
      } else {
        assert forall q :: m < q < j ==> !TripsOver(w, nodes, m, j, q);
        assert TripsOver(w, nodes, m, j, m) <==> Declared(w, e) && Trips(w, e, nodes[j].fn);
      }
    }
  }

  /** The test of the stage at `j` against the group that starts at `i` and reaches up to it. */
  lemma CandidateExactly(w: World, nodes: seq<Node>, i: nat, j: nat, group: seq<Fn>)
    requires i < j < |nodes| && Foldable(nodes, j) && |group| == j - i
    requires forall k :: i <= k < j ==> nodes[k] == StageNode(group[k - i])
    ensures var r := Independent(w, group, nodes[j].fn);
            && (r == Ok(true) <==> Joins(w, nodes, i, j))
            && (r.Err? <==> TripsAt(w, nodes, i, j))
            && (r.Err? ==> r.error == UndeclaredSide)
  {
    GroupExactly(w, nodes, j, i, group);
  }

  /** One turn of the inner loop, on the list that starts where the group does. */
  lemma LengthTurn(w: World, nodes: seq<Node>, i: nat, n: nat, j: nat)
    requires 1 <= n && i + n == j < |nodes| && AllFoldable(nodes[i..], n) && Foldable(nodes, j)
    ensures var tail := nodes[i..];
            && Foldable(tail, n)
            && GroupLength(w, tail, n)
               == if TripsAt(w, nodes, i, j) then Err(UndeclaredSide)
                  else if Joins(w, nodes, i, j) then GroupLength(w, tail, n + 1) else Ok(n)
  {
    var tail := nodes[i..];
    var group := Fns(tail, n);
    assert tail[n] == nodes[j];
    forall k | i <= k < j
      ensures nodes[k] == StageNode(group[k - i])
    {
      assert tail[k - i] == nodes[k];
    }
    CandidateExactly(w, nodes, i, j, group);
  }

  lemma LengthAtEnd(w: World, nodes: seq<Node>, i: nat, n: nat, j: nat)
    requires 1 <= n && i + n == j <= |nodes| && AllFoldable(nodes[i..], n) && !Foldable(nodes, j)
    ensures GroupLength(w, nodes[i..], n) == Ok(n)
  {
    assert Foldable(nodes[i..], n) <==> Foldable(nodes, j);
  }

  /** What the inner loop ends with, when the run from `i` ends at `e`. */
  ghost function LengthAt(w: World, nodes: seq<Node>, i: nat, e: nat): Result<int, CompileError> {
    if TripsAt(w, nodes, i, e) then Err(UndeclaredSide) else Ok(e - i)
  }

  lemma LengthGrows(w: World, nodes: seq<Node>, tail: seq<Node>, i: nat, n: nat, j: nat)
    requires 1 <= n && i + n == j < |nodes| && tail == nodes[i..] && AllFoldable(tail, n) && Joins(w, nodes, i, j)
    ensures AllFoldable(tail, n + 1) && GroupLength(w, tail, n) == GroupLength(w, tail, n + 1)
  {
    LengthTurn(w, nodes, i, n, j);
    JoinedFits(w, nodes, i, j);
  }

  lemma LengthStops(w: World, nodes: seq<Node>, tail: seq<Node>, i: nat, n: nat, j: nat)
    requires 1 <= n && i + n == j <= |nodes| && tail == nodes[i..] && AllFoldable(tail, n) && !Joins(w, nodes, i, j)
    ensures GroupLength(w, tail, n) == LengthAt(w, nodes, i, j)
  {
    if LoneStage(nodes, j) {
      LengthTurn(w, nodes, i, n, j);
    } else {
      LengthAtEnd(w, nodes, i, n, j);
    }
  }

  /** The inner loop, standing at `j` with the group that starts at `i` and has `n` members. */
  lemma {:induction false} GroupLengthExactly(w: World, nodes: seq<Node>, tail: seq<Node>, i: nat, n: nat, j: nat)
    requires 1 <= n && i + n == j <= |nodes| && tail == nodes[i..] && AllFoldable(tail, n)
    ensures GroupLength(w, tail, n) == LengthAt(w, nodes, i, RunEnd(w, nodes, i, j))
    decreases |nodes| - j
  {
    hide GroupLength, LengthAt, Fits, Declared;
    if Joins(w, nodes, i, j) {
      LengthGrows(w, nodes, tail, i, n, j);
      GroupLengthExactly(w, nodes, tail, i, n + 1, j + 1);
    } else {
      LengthStops(w, nodes, tail, i, n, j);
    }
  }

  /** A stage that joins does not trip. */
  lemma JoinedFits(w: World, nodes: seq<Node>, i: nat, j: nat)
    requires Joins(w, nodes, i, j)
    ensures !TripsAt(w, nodes, i, j)
  {
  }

  /** One turn of the outer loop, at a group's start. */
  lemma FoldTurn(w: World, nodes: seq<Node>, h: nat, e: nat)
    requires h < |nodes| && e == NextStart(w, nodes, h)
    ensures var r, rest := Fold(w, nodes[h..]), Fold(w, nodes[e..]);
            if TripsFrom(w, nodes, h) then r == Err(UndeclaredSide) else if rest.Err? then r == rest else r.Ok?
  {
    var tail := nodes[h..];
    assert Foldable(tail, 0) <==> Foldable(nodes, h);
    if Foldable(tail, 0) {
      var n := e - h;
      assert AllFoldable(tail, 1);
      GroupLengthExactly(w, nodes, tail, h, 1, h + 1);
      assert tail[n..] == nodes[e..];
    } else {
      assert tail[1..] == nodes[e..];
    }
  }

  /** The outer loop, from a group's start on. */
  lemma {:induction false} FoldExactly(w: World, nodes: seq<Node>, h: nat)
    requires h <= |nodes|
    ensures Fold(w, nodes[h..]).Err? <==> exists i :: TripsBeyond(w, nodes, h, i)
    ensures Fold(w, nodes[h..]).Err? ==> Fold(w, nodes[h..]).error == UndeclaredSide
    decreases |nodes| - h
  {
    if h < |nodes| {
      var e := NextStart(w, nodes, h);
      FoldTurn(w, nodes, h, e);
      FoldExactly(w, nodes, e);
      GroupsBeyond(w, nodes, h);
    }
  }

  ghost predicate TripsBeyond(w: World, nodes: seq<Node>, h: nat, i: int) {
    0 <= h <= i < |nodes| && StartsAfter(w, nodes, h, i) && TripsFrom(w, nodes, i)
  }

  lemma GroupsBeyond(w: World, nodes: seq<Node>, h: nat)
    requires h < |nodes|
    ensures (exists i :: TripsBeyond(w, nodes, h, i))
       <==> TripsFrom(w, nodes, h) || exists i :: TripsBeyond(w, nodes, NextStart(w, nodes, h), i)
  {
    var e := NextStart(w, nodes, h);
    if i :| TripsBeyond(w, nodes, h, i) {
      if i != h {
        StartsForward(w, nodes, e, i);
        assert TripsBeyond(w, nodes, e, i);
      }
    }
    if TripsFrom(w, nodes, h) {
      assert TripsBeyond(w, nodes, h, h);
    }
    if i :| TripsBeyond(w, nodes, e, i) {
      assert TripsBeyond(w, nodes, h, i);
    }
  }

  lemma StartsForward(w: World, nodes: seq<Node>, h: nat, i: nat)
    ensures StartsAfter(w, nodes, h, i) ==> h <= i
  {
  }

  /**
   * Folding raises the TypeError exactly if, going from group to group, some group's next candidate
   * meets a member with which it does not have both sides declared before it meets one it overlaps with.
   */
  lemma FoldRaisesExactly(w: World, nodes: seq<Node>)
    ensures Fold(w, nodes).Err? <==>
              exists i :: 0 <= i < |nodes| && Starts(w, nodes, i) && TripsFrom(w, nodes, i)
    ensures Fold(w, nodes).Err? ==> Fold(w, nodes) == Err(UndeclaredSide)
    ensures Fold(w, nodes).Ok? <==> NeverTrips(w, nodes)
  {
    assert nodes[0..] == nodes;
    FoldExactly(w, nodes, 0);
    if i :| TripsBeyond(w, nodes, 0, i) {
      assert Starts(w, nodes, i) && TripsFrom(w, nodes, i);
    }
    if i :| 0 <= i < |nodes| && Starts(w, nodes, i) && TripsFrom(w, nodes, i) {
      assert TripsBeyond(w, nodes, 0, i);
    }
  }

  /** The stages of a stretch of nodes, by their functions. */
  ghost function StageFns(nodes: seq<Node>): seq<Fn> {
    if nodes == [] then [] else (if nodes[0].StageNode? then [nodes[0].fn] else []) + StageFns(nodes[1..])
  }

  /** What stands for the nodes from `i` up to `e`: a node on its own is left alone, a longer run becomes one block. */
  ghost function Gathered(nodes: seq<Node>, i: nat, e: nat): Node
    requires i < e <= |nodes|
  {
    if e == i + 1 then nodes[i] else ParallelNode(StageFns(nodes[i..e]), Parallel)
  }

  /** The list with every maximal run of joining stages gathered, read off the declarations alone. */
  ghost function Blocks(w: World, nodes: seq<Node>, i: nat): seq<Node>
    decreases |nodes| - i
  {
    if i >= |nodes| then []
    else [Gathered(nodes, i, NextStart(w, nodes, i))] + Blocks(w, nodes, NextStart(w, nodes, i))
  }

  lemma {:induction false} FnsAreStageFns(nodes: seq<Node>, tail: seq<Node>, h: nat, n: nat)
    requires h + n <= |nodes| && tail == nodes[h..] && AllFoldable(tail, n)
    ensures Fns(tail, n) == StageFns(nodes[h..h + n])
    decreases n
  {
    StageFnsAre(nodes[h..h + n], Fns(tail, n));
  }

  lemma {:induction false} StageFnsAre(nodes: seq<Node>, fns: seq<Fn>)
    requires |nodes| == |fns| && forall i :: 0 <= i < |fns| ==> nodes[i] == StageNode(fns[i])
    ensures StageFns(nodes) == fns
  {
    if fns != [] {
      StageFnsAre(nodes[1..], fns[1..]);
    }
  }

  /** One turn of the outer loop, when neither it nor what follows trips. */
  lemma FoldGathers(w: World, nodes: seq<Node>, h: nat, e: nat)
    requires h < |nodes| && e == NextStart(w, nodes, h) && !TripsFrom(w, nodes, h) && Fold(w, nodes[e..]).Ok?
    ensures Fold(w, nodes[h..]) == Ok([Gathered(nodes, h, e)] + Fold(w, nodes[e..]).value)
  {
    var tail := nodes[h..];
    if LoneStage(nodes, h) {
      assert AllFoldable(tail, 1);
      GroupLengthExactly(w, nodes, tail, h, 1, h + 1);
      assert tail[e - h..] == nodes[e..];
      FnsAreStageFns(nodes, tail, h, e - h);
    } else {
      assert !Foldable(tail, 0) && tail[1..] == nodes[e..];
    }
  }

  lemma {:induction false} FoldFrom(w: World, nodes: seq<Node>, h: nat)
    requires h <= |nodes| && Fold(w, nodes[h..]).Ok?
    ensures Fold(w, nodes[h..]) == Ok(Blocks(w, nodes, h))
    decreases |nodes| - h
  {
    if h < |nodes| {
      FoldTurn(w, nodes, h, NextStart(w, nodes, h));
      FoldFrom(w, nodes, NextStart(w, nodes, h));
      FoldGathers(w, nodes, h, NextStart(w, nodes, h));
    }
  }

  /** Folding gathers exactly the maximal runs, each into one block, or raises the TypeError. */
  lemma FoldIs(w: World, nodes: seq<Node>)
    ensures Fold(w, nodes) == if NeverTrips(w, nodes) then Ok(Blocks(w, nodes, 0)) else Err(UndeclaredSide)
  {
    FoldRaisesExactly(w, nodes);
    assert nodes[0..] == nodes;
    if NeverTrips(w, nodes) {
      FoldFrom(w, nodes, 0);
    }
  }

  /** Exactly when the tests between two declared stages reach an `&` with an undeclared side. */
  lemma PairRaisesExactly(w: World, f: Fn, g: Fn)
    requires Declared(w, f) && Declared(w, g)
    ensures var a, b := w.attrs(f), w.attrs(g);
            Fold(w, [StageNode(f), StageNode(g)]).Err? <==>
            || a.writeKeys.None? || b.readKeys.None?
            || (a.writeKeys.value * b.readKeys.value == {} && (b.writeKeys.None? || a.readKeys.None?))
  {
    var nodes := [StageNode(f), StageNode(g)];
    var a, b := w.attrs(f), w.attrs(g);
    assert Foldable(nodes, 0) && Foldable(nodes, 1);
    assert Fns(nodes, 1) == [f];
    assert [f][1..] == [];
    assert IndependentOfAll(w, [f], g).Err? == IndependentOf(w, f, g).Err?;
    assert GroupLength(w, nodes, 1).Err? == IndependentOf(w, f, g).Err? by {
      if IndependentOf(w, f, g) == Ok(true) {
        assert IndependentOfAll(w, [f][1..], g) == Ok(true);
        assert IndependentOfAll(w, [f], g) == Ok(true);
        assert GroupLength(w, nodes, 1) == GroupLength(w, nodes, 2);
      }
    }
    assert nodes[1..] == [StageNode(g)] && nodes[2..] == [];
    assert Foldable([StageNode(g)], 0) && !Foldable([StageNode(g)], 1);
    assert GroupLength(w, [StageNode(g)], 1) == Ok(1);
    assert Fold(w, [StageNode(g)][1..]) == Ok([]);
    assert Fold(w, [StageNode(g)]).Ok?;
  }

  /** Every stage declares that it reads `k`, and does not declare what it writes. */
  function ReadersOnly(): World {
    World(
      fn => Attrs(true, "f", "", Some({"k"}), None, None, None),
      (nid: string, fn: Fn, c: Context) => Raised,
      (schema, data) => true,
      code => "v")
  }

  /** Two such neighbours raise; one on its own does not. */
  lemma OneSidedNeighboursRaise(f: Fn, g: Fn)
    ensures Fold(ReadersOnly(), [StageNode(f), StageNode(g)]) == Err(UndeclaredSide)
    ensures Fold(ReadersOnly(), [StageNode(f)]) == Ok([StageNode(f)])
  {
    var w := ReadersOnly();
    var one, two := [StageNode(f)], [StageNode(f), StageNode(g)];
    assert "k" in w.attrs(f).readKeys.value;
    PairRaisesExactly(w, f, g);
    FoldRaisesExactly(w, two);
    assert Foldable(one, 0) && !Foldable(one, 1) && GroupLength(w, one, 1) == Ok(1);
    assert one[1..] == [] && one + [] == one;
  }
}
