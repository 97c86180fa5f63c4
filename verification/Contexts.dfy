/** `Context`: the copy-on-write state passed between stages, its forks and their merge. */
module Contexts {
  import opened Primitives

  datatype Ctx = Ctx(data: Data, written: set<Key>, name: string)

  /** Every operation of the class keeps the written set inside the key set (see the constructors below). */
  type Context = c: Ctx | c.written <= c.data.Keys witness Ctx(map[], {}, "root")

  function Create(initial: Data, name: string): Context {
    Ctx(initial, {}, name)
  }

  function Set(c: Context, key: Key, value: Value): Context {
    Ctx(c.data[key := value], c.written + {key}, c.name)
  }

  function Updated(c: Context, patch: Data): Context {
    Ctx(c.data + patch, c.written + patch.Keys, c.name)
  }

  function Fork(c: Context, branch: string): Context {
    Ctx(c.data, {}, branch)
  }

  function Snapshot(c: Context): Data {
    c.data
  }

  function FromSnapshot(data: Data, name: string): Context {
    Ctx(data, {}, name)
  }

  /** `Context.update`: one `set` per patch entry, in any order. */
  method Update(c: Context, patch: Data) returns (r: Context)
    ensures r == Updated(c, patch)
    ensures r.name == c.name && r.written == c.written + patch.Keys && r.data.Keys == c.data.Keys + patch.Keys
    ensures forall k :: k in r.data ==> r.data[k] == if k in patch then patch[k] else c.data[k]
  {
    if patch == map[] {
      return c;
    }
    var newData := c.data;
    var todo := patch.Keys;
    while todo != {}
      invariant todo <= patch.Keys
      invariant newData == c.data + (map k | k in patch && k !in todo :: patch[k])
      decreases todo
    {
      var k :| k in todo;
      newData := newData[k := patch[k]];
      todo := todo - {k};
    }
    r := Ctx(newData, c.written + patch.Keys, c.name);
  }

  /** One `set` after the other. */
  function SetAll(c: Context, entries: seq<(Key, Value)>): Context {
    if entries == [] then c else Set(SetAll(c, Front(entries)), Last(entries).0, Last(entries).1)
  }

  /** The entries are those of the patch, in some order. */
  ghost predicate Enumerates(entries: seq<(Key, Value)>, patch: Data) {
    && (forall e :: e in entries ==> e.0 in patch && patch[e.0] == e.1)
    && forall k :: k in patch ==> (k, patch[k]) in entries
  }

  function Collected(entries: seq<(Key, Value)>): Data {
    if entries == [] then map[] else Collected(Front(entries))[Last(entries).0 := Last(entries).1]
  }

  lemma {:induction false} SetAllCollected(c: Context, entries: seq<(Key, Value)>)
    ensures SetAll(c, entries) == Updated(c, Collected(entries))
  {
    if entries != [] {
      SetAllCollected(c, Front(entries));
    }
  }

  lemma {:induction false} CollectedValues(entries: seq<(Key, Value)>, patch: Data)
    requires forall e :: e in entries ==> e.0 in patch && patch[e.0] == e.1
    ensures forall k :: k in Collected(entries) ==> k in patch && Collected(entries)[k] == patch[k]
    ensures forall e :: e in entries ==> e.0 in Collected(entries)
  {
    if entries != [] {
      CollectedValues(Front(entries), patch);
      assert entries == Front(entries) + [Last(entries)];
    }
  }

  /** `update` is `set` for each entry, and nothing else, in whatever order the entries come. */
  lemma UpdateIsSets(c: Context, patch: Data, entries: seq<(Key, Value)>)
    requires Enumerates(entries, patch)
    ensures SetAll(c, entries) == Updated(c, patch)
  {
    SetAllCollected(c, entries);
    CollectedValues(entries, patch);
    forall k | k in patch
      ensures k in Collected(entries)
    {
      assert (k, patch[k]) in entries;
    }
    assert Collected(entries) == patch;
  }

  // ---------------------------------------------------------------- merge

  datatype MergeResult = Merged(ctx: Context) | Conflict(keys: seq<Key>, names: seq<string>)

  /** Two branches of different name wrote `k`. */
  ghost predicate Clashes(bs: seq<Context>, k: Key) {
    exists i, j :: 0 <= i < |bs| && 0 <= j < |bs|
                   && k in bs[i].written && k in bs[j].written && bs[i].name != bs[j].name
  }

  ghost predicate ClashFree(bs: seq<Context>) {
    forall k :: !Clashes(bs, k)
  }

  function WrittenBy(bs: seq<Context>): set<Key> {
    if bs == [] then {} else WrittenBy(Front(bs)) + Last(bs).written
  }

  /** The entries a branch wrote, with their values. */
  function Writes(c: Context): Data {
    map k | k in c.written :: c.data[k]
  }

  function Overlay(base: Data, bs: seq<Context>): Data {
    if bs == [] then base else Overlay(base, Front(bs)) + Writes(Last(bs))
  }

  /** The context a successful merge builds. */
  function MergedContext(base: Context, bs: seq<Context>): Context {
    OverlayKeys(base.data, bs);
    Ctx(Overlay(base.data, bs), base.written + WrittenBy(bs), base.name)
  }

  lemma OverlayKeys(base: Data, bs: seq<Context>)
    ensures Overlay(base, bs).Keys == base.Keys + WrittenBy(bs)
  {
    if bs != [] {
      OverlayKeys(base, Front(bs));
    }
  }

  lemma {:induction false} WrittenByMember(bs: seq<Context>, k: Key)
    ensures k in WrittenBy(bs) <==> exists i :: 0 <= i < |bs| && k in bs[i].written
  {
    if bs != [] {
      WrittenByMember(Front(bs), k);
      if k in WrittenBy(Front(bs)) {
        var i :| 0 <= i < |Front(bs)| && k in Front(bs)[i].written;
        assert k in bs[i].written;
      }
    }
  }

  /** Writer `i` of key `k` has been visited by the loops of `Merge` standing at branch `n`. */
  ghost predicate Visited(bs: seq<Context>, n: nat, done: set<Key>, i: nat, k: Key)
    requires n <= |bs|
  {
    (i < n && k in bs[i].written) || (i == n < |bs| && k in done)
  }

  ghost predicate NoDuplicates<T>(s: seq<T>) {
    forall i, j :: 0 <= i < j < |s| ==> s[i] != s[j]
  }

  /** What the first-writer table and the conflict list say of the writes visited so far. */
  ghost predicate MergeProgress(bs: seq<Context>, n: nat, done: set<Key>, seen: map<Key, string>, conflicts: seq<Key>)
    requires n <= |bs|
  {
    && (forall i: nat, k | Visited(bs, n, done, i, k) :: k in seen && (k in conflicts || seen[k] == bs[i].name))
    && (forall k | k in seen :: exists i: nat :: Visited(bs, n, done, i, k) && bs[i].name == seen[k])
    && (forall k | k in conflicts ::
          k in seen && exists i: nat :: Visited(bs, n, done, i, k) && bs[i].name != seen[k])
    && NoDuplicates(conflicts)
  }

  lemma MergeConflictsExact(bs: seq<Context>, seen: map<Key, string>, conflicts: seq<Key>)
    requires MergeProgress(bs, |bs|, {}, seen, conflicts)
    ensures forall k :: k in conflicts <==> Clashes(bs, k)
  {
    forall k
      ensures k in conflicts <==> Clashes(bs, k)
    {
      if k in conflicts {
        var i: nat :| Visited(bs, |bs|, {}, i, k) && bs[i].name != seen[k];
        var j: nat :| Visited(bs, |bs|, {}, j, k) && bs[j].name == seen[k];
      }
      if Clashes(bs, k) {
        var i, j :| 0 <= i < |bs| && 0 <= j < |bs|
                    && k in bs[i].written && k in bs[j].written && bs[i].name != bs[j].name;
        assert Visited(bs, |bs|, {}, i, k) && Visited(bs, |bs|, {}, j, k);
      }
    }
  }

  /** One write visited by the inner loop keeps the progress predicate. */
  lemma MergeProgressStep(bs: seq<Context>, n: nat, done: set<Key>, seen: map<Key, string>, conflicts: seq<Key>,
                          k: Key, seen': map<Key, string>, conflicts': seq<Key>)
    requires n < |bs| && k in bs[n].written && k !in done
    requires MergeProgress(bs, n, done, seen, conflicts)
    requires if k in seen && seen[k] != bs[n].name
             then seen' == seen && conflicts' == if k in conflicts then conflicts else conflicts + [k]
             else seen' == seen[k := bs[n].name] && conflicts' == conflicts
    ensures MergeProgress(bs, n, done + {k}, seen', conflicts')
  {
    var done' := done + {k};
    forall i: nat, q | Visited(bs, n, done', i, q)
      ensures q in seen' && (q in conflicts' || seen'[q] == bs[i].name)
    {
      if !(i == n && q == k) {
        assert Visited(bs, n, done, i, q);
      }
    }
    forall q | q in seen'
      ensures exists i: nat :: Visited(bs, n, done', i, q) && bs[i].name == seen'[q]
    {
      if q == k && seen' != seen {
        assert Visited(bs, n, done', n, q);
      } else if q in seen {
        var i: nat :| Visited(bs, n, done, i, q) && bs[i].name == seen[q];
        assert Visited(bs, n, done', i, q);
      }
    }
    forall q | q in conflicts'
      ensures q in seen' && exists i: nat :: Visited(bs, n, done', i, q) && bs[i].name != seen'[q]
    {
      if q in conflicts {
        var i: nat :| Visited(bs, n, done, i, q) && bs[i].name != seen[q];
        assert Visited(bs, n, done', i, q);
      } else {
        assert q == k && Visited(bs, n, done', n, q);
      }
    }
  }

  lemma MergeProgressNext(bs: seq<Context>, n: nat, seen: map<Key, string>, conflicts: seq<Key>)
    requires n < |bs|
    requires MergeProgress(bs, n, bs[n].written, seen, conflicts)
    ensures MergeProgress(bs, n + 1, {}, seen, conflicts)
  {
    assert forall i: nat, k :: Visited(bs, n, bs[n].written, i, k) <==> Visited(bs, n + 1, {}, i, k);
  }

  /** The data after branches `..n` and the writes `done` of branch `n`. */
  ghost function PartialOverlay(base: Data, bs: seq<Context>, n: nat, done: set<Key>): Data
    requires n <= |bs|
  {
    Overlay(base, bs[..n]) + (map k | k in done && n < |bs| && k in bs[n].written :: bs[n].data[k])
  }

  ghost function PartialWritten(base: Context, bs: seq<Context>, n: nat, done: set<Key>): set<Key>
    requires n <= |bs|
  {
    base.written + WrittenBy(bs[..n]) + done
  }

  /** The local variables of `Context.merge`. */
  datatype MergeState = MergeState(
    seen: map<Key, string>, conflicts: seq<Key>, conflictBranches: seq<string>, data: Data, written: set<Key>)

  ghost predicate MergeInvariant(base: Context, bs: seq<Context>, n: nat, done: set<Key>, st: MergeState)
    requires n <= |bs|
  {
    && MergeProgress(bs, n, done, st.seen, st.conflicts)
    && (st.conflicts == [] ==> st.data == PartialOverlay(base.data, bs, n, done))
    && st.written == PartialWritten(base, bs, n, done)
  }

  /** The body of the inner loop of `Context.merge`. */
  function MergeKey(branch: Context, key: Key, st: MergeState): MergeState
    requires key in branch.written
  {
    if key in st.seen && st.seen[key] != branch.name then
      if key in st.conflicts then st
      else
        st.(conflicts := st.conflicts + [key],
        conflictBranches := st.conflictBranches + [st.seen[key], branch.name])
    else
      st.(seen := st.seen[key := branch.name],
      data := st.data[key := branch.data[key]],
      written := st.written + {key})
  }

  lemma MergeKeyStep(base: Context, bs: seq<Context>, n: nat, done: set<Key>, st: MergeState, key: Key)
    requires n < |bs| && key in bs[n].written && key !in done
    requires MergeInvariant(base, bs, n, done, st)
    ensures MergeInvariant(base, bs, n, done + {key}, MergeKey(bs[n], key, st))
  {
    var st' := MergeKey(bs[n], key, st);
    MergeKeyWritten(base, bs, n, done, st, key);
    MergeKeyData(base, bs, n, done, st, key);
    assert MergeProgress(bs, n, done + {key}, st'.seen, st'.conflicts) by {
      MergeProgressStep(bs, n, done, st.seen, st.conflicts, key, st'.seen, st'.conflicts);
    }
  }

  lemma MergeKeyWritten(base: Context, bs: seq<Context>, n: nat, done: set<Key>, st: MergeState, key: Key)
    requires n < |bs| && key in bs[n].written && key !in done
    requires MergeProgress(bs, n, done, st.seen, st.conflicts)
    requires st.written == PartialWritten(base, bs, n, done)
    ensures MergeKey(bs[n], key, st).written == PartialWritten(base, bs, n, done + {key})
  {
    if key in st.seen {
      SeenIsWritten(bs, n, done, st.seen, st.conflicts, key);
    }
  }

  lemma MergeKeyData(base: Context, bs: seq<Context>, n: nat, done: set<Key>, st: MergeState, key: Key)
    requires n < |bs| && key in bs[n].written && key !in done
    requires st.conflicts == [] ==> st.data == PartialOverlay(base.data, bs, n, done)
    ensures MergeKey(bs[n], key, st).conflicts == [] ==>
              MergeKey(bs[n], key, st).data == PartialOverlay(base.data, bs, n, done + {key})
  {
  }

  /** `x` names a branch that wrote a key another branch wrote too. */
  ghost predicate Blamed(bs: seq<Context>, x: string) {
    exists i, k :: 0 <= i < |bs| && bs[i].name == x && k in bs[i].written && Clashes(bs, k)
  }

  /** Only branches that clash are blamed, and if there is a conflict at least two of them. */
  ghost predicate BlameOk(bs: seq<Context>, conflicts: seq<Key>, blamed: seq<string>) {
    && (forall x :: x in blamed ==> Blamed(bs, x))
    && (if conflicts == [] then blamed == [] else |blamed| >= 2 && blamed[0] != blamed[1])
  }

  lemma BlameStep(bs: seq<Context>, n: nat, done: set<Key>, st: MergeState, key: Key)
    requires n < |bs| && key in bs[n].written
    requires MergeProgress(bs, n, done, st.seen, st.conflicts) && BlameOk(bs, st.conflicts, st.conflictBranches)
    ensures var st' := MergeKey(bs[n], key, st); BlameOk(bs, st'.conflicts, st'.conflictBranches)
  {
    if key in st.seen && st.seen[key] != bs[n].name {
      ClashIsBlamed(bs, n, done, st.seen, st.conflicts, key);
      BlameTwo(bs, st.conflicts, st.conflictBranches, key, st.seen[key], bs[n].name);
    }
  }

  lemma ClashIsBlamed(bs: seq<Context>, n: nat, done: set<Key>, seen: map<Key, string>, conflicts: seq<Key>, key: Key)
    requires n < |bs| && key in bs[n].written && MergeProgress(bs, n, done, seen, conflicts)
    requires key in seen && seen[key] != bs[n].name
    ensures Blamed(bs, seen[key]) && Blamed(bs, bs[n].name)
  {
    var i: nat :| Visited(bs, n, done, i, key) && bs[i].name == seen[key];
    assert key in bs[i].written && key in bs[n].written && bs[i].name != bs[n].name;
    assert Clashes(bs, key);
  }

  lemma BlameTwo(bs: seq<Context>, conflicts: seq<Key>, blamed: seq<string>, key: Key, x: string, y: string)
    requires BlameOk(bs, conflicts, blamed) && x != y && Blamed(bs, x) && Blamed(bs, y)
    ensures BlameOk(bs, conflicts + [key], blamed + [x, y])
  {
    var blamed' := blamed + [x, y];
    assert blamed != [] ==> blamed'[0] == blamed[0] && blamed'[1] == blamed[1];
    assert blamed == [] ==> blamed' == [x, y];
  }

  lemma MergeStart(base: Context, bs: seq<Context>)
    ensures MergeInvariant(base, bs, 0, {}, MergeState(map[], [], [], base.data, base.written))
  {
  }

  /** `MergeKeyStep` in terms of the writes still to do. */
  lemma MergeTodoStep(base: Context, bs: seq<Context>, n: nat, todo: set<Key>, st: MergeState, key: Key)
    requires n < |bs| && key in todo && todo <= bs[n].written
    requires MergeInvariant(base, bs, n, bs[n].written - todo, st)
    ensures MergeInvariant(base, bs, n, bs[n].written - (todo - {key}), MergeKey(bs[n], key, st))
  {
    MergeKeyStep(base, bs, n, bs[n].written - todo, st, key);
    assert bs[n].written - todo + {key} == bs[n].written - (todo - {key});
  }

  lemma PartialsDone(base: Context, bs: seq<Context>, n: nat)
    requires n < |bs|
    ensures PartialWritten(base, bs, n, bs[n].written) == PartialWritten(base, bs, n + 1, {})
    ensures PartialOverlay(base.data, bs, n, bs[n].written) == PartialOverlay(base.data, bs, n + 1, {})
  {
    var next := bs[..n + 1];
    assert Front(next) == bs[..n] && Last(next) == bs[n];
  }

  lemma MergeBranchDone(base: Context, bs: seq<Context>, n: nat, st: MergeState)
    requires n < |bs| && MergeInvariant(base, bs, n, bs[n].written - {}, st)
    ensures MergeInvariant(base, bs, n + 1, {}, st)
  {
    assert bs[n].written - {} == bs[n].written;
    MergeProgressNext(bs, n, st.seen, st.conflicts);
    PartialsDone(base, bs, n);
  }

  lemma MergeDone(base: Context, bs: seq<Context>, st: MergeState)
    requires MergeInvariant(base, bs, |bs|, {}, st)
    ensures forall k :: k in st.conflicts <==> Clashes(bs, k)
    ensures NoDuplicates(st.conflicts)
    ensures st.conflicts != [] <==> !ClashFree(bs)
    ensures st.conflicts == [] ==> MergedContext(base, bs) == Ctx(st.data, st.written, base.name)
  {
    MergeConflictsExact(bs, st.seen, st.conflicts);
    assert bs[..|bs|] == bs;
    if st.conflicts != [] {
      assert Clashes(bs, st.conflicts[0]);
    } else {
      assert st.data == Overlay(base.data, bs);
    }
  }

  /**
   * `Context.merge`. It fails exactly when a key was written by two branches of different
   * name, and then lists each such key once, whatever the iteration order of the written sets.
   */
  method Merge(base: Context, branches: seq<Context>) returns (r: MergeResult)
    ensures r.Conflict? <==> !ClashFree(branches)
    ensures r.Conflict? ==> (forall k :: k in r.keys <==> Clashes(branches, k)) && NoDuplicates(r.keys)
    ensures r.Conflict? ==> |r.names| >= 2 && NoDuplicates(r.names) && forall x :: x in r.names ==> Blamed(branches, x)
    ensures r.Merged? ==> r.ctx == MergedContext(base, branches)
  {
    var st := MergeState(map[], [], [], base.data, base.written);
    MergeStart(base, branches);
    for n := 0 to |branches|
      invariant MergeInvariant(base, branches, n, {}, st) && BlameOk(branches, st.conflicts, st.conflictBranches)
    {
      var todo := branches[n].written;
      assert branches[n].written - todo == {};
      while todo != {}
        invariant todo <= branches[n].written
        invariant MergeInvariant(base, branches, n, branches[n].written - todo, st)
        invariant BlameOk(branches, st.conflicts, st.conflictBranches)
        decreases todo
      {
        var key :| key in todo;
        BlameStep(branches, n, branches[n].written - todo, st, key);
        MergeTodoStep(base, branches, n, todo, st, key);
        st := MergeKey(branches[n], key, st);
        todo := todo - {key};
      }
      MergeBranchDone(base, branches, n, st);
    }
    MergeDone(base, branches, st);
    if st.conflicts != [] {
      var names := FirstOccurrences(st.conflictBranches);
      TwoOccurrences(st.conflictBranches, names);
      r := Conflict(st.conflicts, names);
    } else {
      r := Merged(Ctx(st.data, st.written, base.name));
    }
  }

  lemma SeenIsWritten(bs: seq<Context>, n: nat, done: set<Key>, seen: map<Key, string>, conflicts: seq<Key>, k: Key)
    requires n < |bs| && k in seen && k !in done && MergeProgress(bs, n, done, seen, conflicts)
    ensures k in WrittenBy(bs[..n])
  {
    var i: nat :| Visited(bs, n, done, i, k) && bs[i].name == seen[k];
    assert k in bs[..n][i].written;
    WrittenByMember(bs[..n], k);
  }

  /** `x` has occurred at a point where `y` has not. */
  ghost predicate OccursBefore(s: seq<string>, x: string, y: string) {
    exists m :: 0 <= m <= |s| && x in s[..m] && y !in s[..m]
  }

  lemma OccursStill(s: seq<string>)
    requires s != []
    ensures forall x, y :: OccursBefore(Front(s), x, y) ==> OccursBefore(s, x, y)
  {
    forall x, y | OccursBefore(Front(s), x, y)
      ensures OccursBefore(s, x, y)
    {
      var m :| 0 <= m <= |Front(s)| && x in Front(s)[..m] && y !in Front(s)[..m];
      assert Front(s)[..m] == s[..m];
    }
  }

  lemma OccursLast(s: seq<string>)
    requires s != []
    ensures forall x :: x in Front(s) && Last(s) !in Front(s) ==> OccursBefore(s, x, Last(s))
  {
    assert s[..|s| - 1] == Front(s);
  }

  /** `list(dict.fromkeys(s))`. */
  function FirstOccurrences(s: seq<string>): (r: seq<string>)
    ensures NoDuplicates(r) && forall x :: x in r <==> x in s
    ensures forall i, j :: 0 <= i < j < |r| ==> OccursBefore(s, r[i], r[j])
  {
    if s == [] then []
    else
      var r := FirstOccurrences(Front(s));
      assert forall x, y :: OccursBefore(Front(s), x, y) ==> OccursBefore(s, x, y) by { OccursStill(s); }
      assert forall x :: x in Front(s) && Last(s) !in Front(s) ==> OccursBefore(s, x, Last(s)) by { OccursLast(s); }
      if Last(s) in r then r else r + [Last(s)]
  }

  lemma TwoOccurrences(s: seq<string>, r: seq<string>)
    requires |s| >= 2 && s[0] != s[1] && forall x :: x in s ==> x in r
    ensures |r| >= 2
  {
    assert s[0] in r && s[1] in r;
  }

  ghost predicate DistinctNames(bs: seq<Context>) {
    forall i, j :: 0 <= i < j < |bs| ==> bs[i].name != bs[j].name
  }

  lemma ClashesFront(bs: seq<Context>, k: Key)
    requires bs != []
    ensures Clashes(Front(bs), k) ==> Clashes(bs, k)
  {
    if Clashes(Front(bs), k) {
      var i, j :| 0 <= i < |bs| - 1 && 0 <= j < |bs| - 1
                  && k in Front(bs)[i].written && k in Front(bs)[j].written && Front(bs)[i].name != Front(bs)[j].name;
      assert k in bs[i].written && k in bs[j].written && bs[i].name != bs[j].name;
    }
  }

  /** Without a clash, a key's merged value is the one its only branch wrote, else the base's. */
  lemma {:induction false} OverlayValue(base: Data, bs: seq<Context>, k: Key)
    requires DistinctNames(bs) && !Clashes(bs, k)
    ensures forall i :: 0 <= i < |bs| && k in bs[i].written ==>
              k in Overlay(base, bs) && Overlay(base, bs)[k] == bs[i].data[k]
    ensures k !in WrittenBy(bs) ==> (k in Overlay(base, bs) <==> k in base)
    ensures k !in WrittenBy(bs) && k in base ==> Overlay(base, bs)[k] == base[k]
  {
    if bs != [] {
      var front := Front(bs);
      ClashesFront(bs, k);
      OverlayValue(base, front, k);
      forall i | 0 <= i < |bs| && k in bs[i].written
        ensures k in Overlay(base, bs) && Overlay(base, bs)[k] == bs[i].data[k]
      {
        if i < |front| {
          assert front[i] == bs[i];
          assert k !in Last(bs).written;
        }
      }
    }
  }

  /** With distinct branch names the merge gives the same answer for every order of the branches. */
  lemma MergeOrderIndependent(base: Context, bs: seq<Context>, cs: seq<Context>)
    requires multiset(bs) == multiset(cs) && DistinctNames(bs) && DistinctNames(cs)
    ensures forall k :: Clashes(bs, k) <==> Clashes(cs, k)
    ensures ClashFree(bs) ==> MergedContext(base, bs) == MergedContext(base, cs)
  {
    ClashesCarryOver(bs, cs);
    ClashesCarryOver(cs, bs);
    if ClashFree(bs) {
      OverlayKeys(base.data, bs);
      OverlayKeys(base.data, cs);
      forall k
        ensures k in WrittenBy(bs) <==> k in WrittenBy(cs)
        ensures k in Overlay(base.data, bs) ==>
                  k in Overlay(base.data, cs) && Overlay(base.data, bs)[k] == Overlay(base.data, cs)[k]
      {
        WrittenCarriesOver(bs, cs, k);
        WrittenCarriesOver(cs, bs, k);
        OverlayValue(base.data, bs, k);
        OverlayValue(base.data, cs, k);
        if k in WrittenBy(bs) {
          WrittenByMember(bs, k);
          var i :| 0 <= i < |bs| && k in bs[i].written;
          SameElements(bs, cs, i);
        }
      }
      assert WrittenBy(bs) == WrittenBy(cs);
    }
  }

  lemma SameElements(bs: seq<Context>, cs: seq<Context>, i: nat)
    requires multiset(bs) == multiset(cs) && i < |bs|
    ensures exists j :: 0 <= j < |cs| && cs[j] == bs[i]
  {
    assert bs[i] in multiset(cs);
  }

  lemma WrittenCarriesOver(bs: seq<Context>, cs: seq<Context>, k: Key)
    requires multiset(bs) == multiset(cs)
    ensures k in WrittenBy(bs) ==> k in WrittenBy(cs)
  {
    WrittenByMember(bs, k);
    WrittenByMember(cs, k);
    if k in WrittenBy(bs) {
      var i :| 0 <= i < |bs| && k in bs[i].written;
      SameElements(bs, cs, i);
    }
  }

  lemma ClashesCarryOver(bs: seq<Context>, cs: seq<Context>)
    requires multiset(bs) == multiset(cs)
    ensures forall k :: Clashes(bs, k) ==> Clashes(cs, k)
  {
    forall k | Clashes(bs, k)
      ensures Clashes(cs, k)
    {
      var i, j :| 0 <= i < |bs| && 0 <= j < |bs|
                  && k in bs[i].written && k in bs[j].written && bs[i].name != bs[j].name;
      SameElements(bs, cs, i);
      SameElements(bs, cs, j);
    }
  }
}
