/**
 * The stream hand-off: each streaming stage's generator feeds a bounded queue that the executor drains,
 * emitting every chunk into the bounded queue that the caller of `Pipeline.stream` reads. Each queue
 * ends with a sentinel. A run streams block by block; the branches of one block stream side by side.
 */
module Streams {
  import opened Primitives

  type Chunk(==, 0, !new)

  /** What the generator of a stage yields, and whether it raises after that. */
  datatype Script = Script(chunks: seq<Chunk>, fails: bool)

  /** The branches of a Parallel block; a stage on its own is a block of one. */
  datatype Block = Block(branches: seq<Script>, mode: ForkMode)

  datatype Cell<T> = Item(value: T) | Sentinel

  const CAPACITY := 32

  /** The executor's consumer of one branch. */
  datatype Consumer =
    | Taking
    | Emitting(chunk: Chunk)
    | Joining // past the sentinel, awaiting the producer task
    | Ended

  /** One streaming branch: its producer, its queue and its consumer. */
  datatype Branch = Branch(
    produced: nat, closed: bool, inner: seq<Cell<Chunk>>, accumulated: seq<Chunk>, consumer: Consumer)

  /** The driver's task; `failed` is the branch whose error ended the run. */
  datatype Driver = Running | Closing(failed: Option<nat>) | Done(failed: Option<nat>)

  datatype Reader = Reading | Awaiting | Returned(ok: bool)

  /** A chunk in the outer queue. The queue holds the chunk alone; where it comes from is for the statements below. */
  datatype Tagged = Tagged(chunk: Chunk, block: nat, branch: nat)

  datatype State = State(
    at: nat, branches: seq<Branch>, driver: Driver, outer: seq<Cell<Tagged>>, yielded: seq<Tagged>, reader: Reader)

  /** The atomic steps of all tasks. */
  datatype Act =
    | Put(i: nat)
    | CloseInner(i: nat)
    | Take(i: nat)
    | Emit(i: nat)
    | Join(i: nat)
    | Advance
    | Fail(i: nat)
    | CloseOuter
    | Read
    | Finish

  const IDLE := Branch(0, false, [], [], Taking)

  /** The branches of block `n`, about to stream; none behind the last block. */
  function Opened(plan: seq<Block>, n: nat): seq<Branch> {
    if n < |plan| then seq(|plan[n].branches|, _ => IDLE) else []
  }

  function Start(plan: seq<Block>): State {
    State(0, Opened(plan, 0), if plan == [] then Closing(None) else Running, [], [], Reading)
  }

  predicate AllEnded(bs: seq<Branch>) {
    forall i :: 0 <= i < |bs| ==> bs[i].consumer.Ended?
  }

  /** The block ends without an error: fire-and-forget absorbs those of its branches. */
  predicate Survives(block: Block) {
    block.mode.FireForget? || forall i :: 0 <= i < |block.branches| ==> !block.branches[i].fails
  }

  predicate AllSurvive(plan: seq<Block>) {
    forall k :: 0 <= k < |plan| ==> Survives(plan[k])
  }

  predicate Streaming(plan: seq<Block>, s: State, i: nat) {
    s.at < |plan| && i < |s.branches| == |plan[s.at].branches|
  }

  predicate Enabled(plan: seq<Block>, s: State, act: Act) {
    match act
    case Put(i) =>
      && Streaming(plan, s, i) && var b, chunks := s.branches[i], plan[s.at].branches[i].chunks;
      !b.closed && b.produced < |chunks| && |b.inner| < CAPACITY
    case CloseInner(i) =>
      && Streaming(plan, s, i) && var b, chunks := s.branches[i], plan[s.at].branches[i].chunks;
      !b.closed && b.produced == |chunks| && |b.inner| < CAPACITY
    case Take(i) => Streaming(plan, s, i) && s.branches[i].consumer.Taking? && s.branches[i].inner != []
    case Emit(i) => Streaming(plan, s, i) && s.branches[i].consumer.Emitting? && |s.outer| < CAPACITY
    case Join(i) => Streaming(plan, s, i) && s.branches[i].consumer.Joining? && s.branches[i].closed
    case Advance => s.driver.Running? && s.at < |plan| && AllEnded(s.branches) && Survives(plan[s.at])
    case Fail(i) =>
      && s.driver.Running? && Streaming(plan, s, i) && plan[s.at].mode.Parallel?
      && s.branches[i].consumer.Ended? && plan[s.at].branches[i].fails
    case CloseOuter => s.driver.Closing? && |s.outer| < CAPACITY
    case Read => s.reader.Reading? && s.outer != []
    case Finish => s.reader.Awaiting? && s.driver.Done?
  }

  /** What one branch's own step does to it. */
  function BranchNext(script: Script, b: Branch, act: Act): Branch {
    match act
    case Put(_) =>
      if b.produced < |script.chunks| then
        b.(inner := b.inner + [Item(script.chunks[b.produced])], produced := b.produced + 1)
      else b
    case CloseInner(_) => b.(inner := b.inner + [Sentinel], closed := true)
    case Take(_) =>
      if b.inner == [] then b
      else
        (match b.inner[0]
         case Item(chunk) =>
           b.(inner := b.inner[1..], accumulated := b.accumulated + [chunk], consumer := Emitting(chunk))
         case Sentinel => b.(inner := b.inner[1..], consumer := Joining))
    case Emit(_) => b.(consumer := Taking)
    case Join(_) => b.(consumer := Ended)
    case _ => b
  }

  predicate OfBranch(act: Act) {
    act.Put? || act.CloseInner? || act.Take? || act.Emit? || act.Join?
  }

  function Next(plan: seq<Block>, s: State, act: Act): State
    requires Enabled(plan, s, act)
  {
    if OfBranch(act) then
      var b := s.branches[act.i];
      var outer := if act.Emit? then s.outer + [Item(Tagged(b.consumer.chunk, s.at, act.i))] else s.outer;
      s.(branches := s.branches[act.i := BranchNext(plan[s.at].branches[act.i], b, act)], outer := outer)
    else
      match act
      case Advance =>
        s.(at := s.at + 1, branches := Opened(plan, s.at + 1),
        driver := if s.at + 1 < |plan| then Running else Closing(None))
      case Fail(i) => s.(driver := Closing(Some(i)))
      case CloseOuter => s.(outer := s.outer + [Sentinel], driver := Done(s.driver.failed))
      case Read =>
        (match s.outer[0]
         case Item(t) => s.(outer := s.outer[1..], yielded := s.yielded + [t])
         case Sentinel => s.(outer := s.outer[1..], reader := Awaiting))
      case Finish => s.(reader := Returned(s.driver.failed.None?))
  }

  // ------------------------------------------------------------ queues and flows

  function Items<T>(q: seq<Cell<T>>): seq<T> {
    if q == [] then []
    else if q[0].Item? then [q[0].value] + Items(q[1..])
    else Items(q[1..])
  }

  /** What stands before the sentinel. */
  function Coming<T>(q: seq<Cell<T>>): seq<T> {
    if q == [] || q[0].Sentinel? then [] else [q[0].value] + Coming(q[1..])
  }

  function Sentinels<T>(q: seq<Cell<T>>): nat {
    if q == [] then 0 else (if q[0].Sentinel? then 1 else 0) + Sentinels(q[1..])
  }

  lemma {:induction false} QueueAppend<T>(q: seq<Cell<T>>, c: Cell<T>)
    ensures Items(q + [c]) == Items(q) + if c.Item? then [c.value] else []
    ensures Sentinels(q + [c]) == Sentinels(q) + if c.Item? then 0 else 1
    ensures Coming(q + [c]) == Coming(q) + if Sentinels(q) == 0 && c.Item? then [c.value] else []
  {
    if q == [] {
      assert q + [c] == [c] && [c][1..] == [];
    } else {
      assert (q + [c])[1..] == q[1..] + [c];
      QueueAppend(q[1..], c);
    }
  }

  lemma {:induction false} NoSentinel<T>(q: seq<Cell<T>>)
    requires Sentinels(q) == 0
    ensures Coming(q) == Items(q) && (q != [] ==> q[0].Item?)
  {
    if q != [] {
      NoSentinel(q[1..]);
    }
  }

  /** The chunks that come from branch `i` of block `k`, in order. */
  function Of(ts: seq<Tagged>, k: nat, i: nat): seq<Chunk> {
    if ts == [] then []
    else Of(Front(ts), k, i) + if Last(ts).block == k && Last(ts).branch == i then [Last(ts).chunk] else []
  }

  lemma OfAppend(ts: seq<Tagged>, t: Tagged, k: nat, i: nat)
    ensures Of(ts + [t], k, i) == Of(ts, k, i) + if t.block == k && t.branch == i then [t.chunk] else []
  {
    assert Front(ts + [t]) == ts;
  }

  lemma {:induction false} OfConcat(a: seq<Tagged>, b: seq<Tagged>, k: nat, i: nat)
    ensures Of(a + b, k, i) == Of(a, k, i) + Of(b, k, i)
    decreases |b|
  {
    if b == [] {
      assert a + b == a;
    } else {
      assert Front(a + b) == a + Front(b) && Last(a + b) == Last(b);
      OfConcat(a, Front(b), k, i);
    }
  }

  /** Everything emitted so far, and what of it the caller has seen or will see. */
  function Flowing(s: State): seq<Tagged> {
    s.yielded + Items(s.outer)
  }

  function Seen(s: State): seq<Tagged> {
    if s.reader.Reading? then s.yielded + Coming(s.outer) else s.yielded
  }

  // ----------------------------------------------------------------- invariants

  function InHand(b: Branch): seq<Chunk> {
    if b.consumer.Emitting? then [b.consumer.chunk] else []
  }

  /** One branch: what was produced is what was taken followed by what is queued. */
  ghost predicate BranchOk(script: Script, b: Branch) {
    && b.produced <= |script.chunks| && |b.inner| <= CAPACITY
    && b.accumulated + Items(b.inner) == script.chunks[..b.produced]
    && (b.closed ==> b.produced == |script.chunks|)
    && Sentinels(b.inner) == (if b.closed && (b.consumer.Taking? || b.consumer.Emitting?) then 1 else 0)
    && (b.inner != [] && Sentinels(b.inner) == 1 ==> Last(b.inner).Sentinel?)
    && (b.consumer.Joining? || b.consumer.Ended? ==> b.closed && b.inner == [])
  }

  /** All of the branch has been emitted. */
  ghost predicate Complete(plan: seq<Block>, ts: seq<Tagged>, k: nat, i: nat)
    requires k < |plan| && i < |plan[k].branches|
  {
    Of(ts, k, i) == plan[k].branches[i].chunks
  }

  ghost predicate BlockComplete(plan: seq<Block>, ts: seq<Tagged>, k: nat)
    requires k < |plan|
  {
    forall i :: 0 <= i < |plan[k].branches| ==> Complete(plan, ts, k, i)
  }

  /** Every chunk is tagged with a branch of a block up to `at`, and blocks follow each other. */
  ghost predicate TagsOk(plan: seq<Block>, at: nat, ts: seq<Tagged>) {
    && (forall j :: 0 <= j < |ts| ==>
          ts[j].block <= at && ts[j].block < |plan| && ts[j].branch < |plan[ts[j].block].branches|)
    && forall j, l :: 0 <= j < l < |ts| ==> ts[j].block <= ts[l].block
  }

  ghost predicate BranchesOk(plan: seq<Block>, at: nat, bs: seq<Branch>, flow: seq<Tagged>) {
    if at < |plan| then
      && |bs| == |plan[at].branches|
      && forall i :: 0 <= i < |bs| ==>
           BranchOk(plan[at].branches[i], bs[i]) && Of(flow, at, i) + InHand(bs[i]) == bs[i].accumulated
    else bs == []
  }

  ghost predicate BlocksOk(plan: seq<Block>, at: nat, flow: seq<Tagged>, seen: seq<Tagged>) {
    forall k :: 0 <= k < at && k < |plan| ==>
      Survives(plan[k]) && BlockComplete(plan, flow, k) && BlockComplete(plan, seen, k)
  }

  /** The run goes on, or all blocks are over, or a branch has failed that has been emitted to the last chunk. */
  ghost predicate DriverOk(plan: seq<Block>, at: nat, bs: seq<Branch>, driver: Driver, seen: seq<Tagged>) {
    match driver
    case Running => at < |plan|
    case Closing(failed) => EndOk(plan, at, bs, failed, seen)
    case Done(failed) => EndOk(plan, at, bs, failed, seen)
  }

  ghost predicate EndOk(plan: seq<Block>, at: nat, bs: seq<Branch>, failed: Option<nat>, seen: seq<Tagged>) {
    match failed
    case None => at == |plan|
    case Some(f) =>
      && at < |plan| && f < |bs| && |bs| == |plan[at].branches|
      && bs[f].consumer.Ended? && plan[at].mode.Parallel? && plan[at].branches[f].fails
      && Complete(plan, seen, at, f)
  }

  ghost predicate ReaderOk(s: State) {
    && |s.outer| <= CAPACITY
    && Sentinels(s.outer) == (if s.driver.Done? && s.reader.Reading? then 1 else 0)
    && (!s.reader.Reading? ==> s.driver.Done?)
    && (s.reader.Returned? ==> s.driver.Done? && s.reader.ok == s.driver.failed.None?)
  }

  ghost predicate FlowOk(plan: seq<Block>, s: State, flow: seq<Tagged>, seen: seq<Tagged>) {
    && s.at <= |plan|
    && TagsOk(plan, s.at, flow)
    && BranchesOk(plan, s.at, s.branches, flow)
    && BlocksOk(plan, s.at, flow, seen)
    && DriverOk(plan, s.at, s.branches, s.driver, seen)
  }

  ghost predicate Inv(plan: seq<Block>, s: State) {
    ReaderOk(s) && FlowOk(plan, s, Flowing(s), Seen(s))
  }

  lemma StartOk(plan: seq<Block>)
    ensures Inv(plan, Start(plan))
  {
  }

  /** A branch's own step keeps it sound; only a take changes what it has accumulated and holds. */
  lemma BranchKeeps(script: Script, b: Branch, act: Act)
    requires BranchOk(script, b) && OfBranch(act)
    requires match act
             case Put(_) => !b.closed && b.produced < |script.chunks| && |b.inner| < CAPACITY
             case CloseInner(_) => !b.closed && b.produced == |script.chunks| && |b.inner| < CAPACITY
             case Take(_) => b.consumer.Taking? && b.inner != []
             case Emit(_) => b.consumer.Emitting?
             case Join(_) => b.consumer.Joining? && b.closed
             case _ => false
    ensures BranchOk(script, BranchNext(script, b, act))
  {
    match act
    case Put(_) =>
      QueueAppend(b.inner, Item(script.chunks[b.produced]));
      assert script.chunks[..b.produced + 1] == script.chunks[..b.produced] + [script.chunks[b.produced]];
      AppendAssoc(b.accumulated, Items(b.inner), [script.chunks[b.produced]]);
    case CloseInner(_) => QueueAppend(b.inner, Sentinel);
    case Take(_) => TakeKeeps(script, b, act);
    case _ =>
  }

  lemma {:induction false} SentinelLast<T>(q: seq<Cell<T>>)
    requires q != [] && q[0].Sentinel? && Sentinels(q) == 1 && Last(q).Sentinel?
    ensures |q| == 1
  {
    if |q| > 1 {
      LastCounts(q[1..]);
    }
  }

  lemma {:induction false} LastCounts<T>(q: seq<Cell<T>>)
    requires q != [] && Last(q).Sentinel?
    ensures Sentinels(q) >= 1
  {
    if |q| > 1 {
      LastCounts(q[1..]);
    }
  }

  lemma TakeKeeps(script: Script, b: Branch, act: Act)
    requires BranchOk(script, b) && act.Take? && b.consumer.Taking? && b.inner != []
    ensures BranchOk(script, BranchNext(script, b, act))
  {
    match b.inner[0]
    case Item(chunk) => AppendAssoc(b.accumulated, [chunk], Items(b.inner[1..]));
    case Sentinel => SentinelLast(b.inner);
  }

  /** What a branch has accumulated beyond what it holds is not changed by a step that emits nothing. */
  lemma QuietBranch(script: Script, b: Branch, act: Act, out: seq<Chunk>)
    requires BranchOk(script, b) && OfBranch(act) && !act.Emit? && out + InHand(b) == b.accumulated
    requires act.Take? ==> b.consumer.Taking? && b.inner != []
    requires act.Join? ==> b.consumer.Joining?
    ensures var b' := BranchNext(script, b, act); out + InHand(b') == b'.accumulated
  {
    assert out + [] == out;
  }

  lemma QuietBranches(plan: seq<Block>, at: nat, bs: seq<Branch>, flow: seq<Tagged>, i: nat, b: Branch)
    requires at < |plan| && BranchesOk(plan, at, bs, flow) && i < |bs|
    requires BranchOk(plan[at].branches[i], b) && Of(flow, at, i) + InHand(b) == b.accumulated
    ensures BranchesOk(plan, at, bs[i := b], flow)
  {
  }

  /** A branch's step that emits nothing. */
  lemma QuietKeeps(plan: seq<Block>, s: State, act: Act)
    requires Inv(plan, s) && Enabled(plan, s, act) && OfBranch(act) && !act.Emit?
    ensures Inv(plan, Next(plan, s, act))
  {
    var i, flow, seen := act.i, Flowing(s), Seen(s);
    var script, b := plan[s.at].branches[i], s.branches[i];
    assert BranchOk(script, b);
    var b' := BranchNext(script, b, act);
    BranchKeeps(script, b, act);
    QuietBranch(script, b, act, Of(flow, s.at, i));
    QuietBranches(plan, s.at, s.branches, flow, i, b');
    DriverQuiet(plan, s.at, s.branches, s.driver, seen, i, b');
    BranchesReplaced(plan, s, s.branches[i := b']);
  }

  lemma DriverQuiet(plan: seq<Block>, at: nat, bs: seq<Branch>, driver: Driver, seen: seq<Tagged>, i: nat, b: Branch)
    requires DriverOk(plan, at, bs, driver, seen) && i < |bs| && (bs[i].consumer.Ended? ==> b.consumer.Ended?)
    ensures DriverOk(plan, at, bs[i := b], driver, seen)
  {
  }

  lemma BranchesReplaced(plan: seq<Block>, s: State, bs: seq<Branch>)
    requires Inv(plan, s)
    requires BranchesOk(plan, s.at, bs, Flowing(s)) && DriverOk(plan, s.at, bs, s.driver, Seen(s))
    ensures Inv(plan, s.(branches := bs))
  {
    var s' := s.(branches := bs);
    assert Flowing(s') == Flowing(s) && Seen(s') == Seen(s);
  }

  lemma TagsAppend(plan: seq<Block>, at: nat, ts: seq<Tagged>, t: Tagged)
    requires TagsOk(plan, at, ts) && t.block == at < |plan| && t.branch < |plan[at].branches|
    ensures TagsOk(plan, at, ts + [t])
  {
  }

  /** Emitting into branch `i` of the current block leaves all finished blocks, and every other branch, as they are. */
  lemma CompleteStays(plan: seq<Block>, ts: seq<Tagged>, t: Tagged, at: nat)
    requires t.block == at <= |plan|
    ensures forall k :: 0 <= k < at && k < |plan| && BlockComplete(plan, ts, k) ==> BlockComplete(plan, ts + [t], k)
    ensures forall i :: at < |plan| && 0 <= i < |plan[at].branches| && i != t.branch && Complete(plan, ts, at, i) ==>
              Complete(plan, ts + [t], at, i)
  {
    forall k: nat, i: nat | k != at || i != t.branch
      ensures Of(ts + [t], k, i) == Of(ts, k, i)
    {
      OfAppend(ts, t, k, i);
    }
    forall k | 0 <= k < at && k < |plan| && BlockComplete(plan, ts, k)
      ensures BlockComplete(plan, ts + [t], k)
    {
      forall i | 0 <= i < |plan[k].branches|
        ensures Complete(plan, ts + [t], k, i)
      {
        assert Complete(plan, ts, k, i);
      }
    }
  }

  /** What is put behind the sentinel is not seen. */
  lemma SeenAfterEmit(s: State, t: Tagged, s': State)
    requires s' == s.(outer := s.outer + [Item(t)], branches := s'.branches) && ReaderOk(s)
    ensures Flowing(s') == Flowing(s) + [t]
    ensures Seen(s') == Seen(s) || Seen(s') == Seen(s) + [t]
  {
    QueueAppend(s.outer, Item(t));
    AppendAssoc(s.yielded, Items(s.outer), [t]);
    AppendAssoc(s.yielded, Coming(s.outer), [t]);
    assert Coming(s.outer) + [] == Coming(s.outer);
  }

  lemma EmitBranches(plan: seq<Block>, s: State, i: nat, t: Tagged)
    requires Inv(plan, s) && Enabled(plan, s, Emit(i)) && t == Tagged(s.branches[i].consumer.chunk, s.at, i)
    ensures BranchesOk(plan, s.at, Next(plan, s, Emit(i)).branches, Flowing(s) + [t])
  {
    var s', flow := Next(plan, s, Emit(i)), Flowing(s);
    BranchKeeps(plan[s.at].branches[i], s.branches[i], Emit(i));
    forall j | 0 <= j < |s'.branches|
      ensures BranchOk(plan[s.at].branches[j], s'.branches[j])
      ensures Of(flow + [t], s.at, j) + InHand(s'.branches[j]) == s'.branches[j].accumulated
    {
      OfAppend(flow, t, s.at, j);
      assert j != i ==> s'.branches[j] == s.branches[j];
    }
  }

  lemma BlocksStay(plan: seq<Block>, at: nat, flow: seq<Tagged>, seen: seq<Tagged>, t: Tagged, seen': seq<Tagged>)
    requires BlocksOk(plan, at, flow, seen) && t.block == at <= |plan| && (seen' == seen || seen' == seen + [t])
    ensures BlocksOk(plan, at, flow + [t], seen')
  {
    CompleteStays(plan, flow, t, at);
    CompleteStays(plan, seen, t, at);
  }

  /** The branch whose error ended the run emits no more. */
  lemma DriverStays(plan: seq<Block>, at: nat, bs: seq<Branch>, driver: Driver, seen: seq<Tagged>, i: nat, b: Branch,
                    t: Tagged, seen': seq<Tagged>)
    requires DriverOk(plan, at, bs, driver, seen) && at < |plan| && i < |bs| && !bs[i].consumer.Ended?
    requires t.block == at && t.branch == i && (seen' == seen || seen' == seen + [t])
    ensures DriverOk(plan, at, bs[i := b], driver, seen')
  {
    CompleteStays(plan, seen, t, at);
  }

  lemma EmitKeeps(plan: seq<Block>, s: State, i: nat)
    requires Inv(plan, s) && Enabled(plan, s, Emit(i))
    ensures Inv(plan, Next(plan, s, Emit(i)))
  {
    var s', t := Next(plan, s, Emit(i)), Tagged(s.branches[i].consumer.chunk, s.at, i);
    var flow, seen, seen' := Flowing(s), Seen(s), Seen(s');
    QueueAppend(s.outer, Item(t));
    SeenAfterEmit(s, t, s');
    EmitBranches(plan, s, i, t);
    TagsAppend(plan, s.at, flow, t);
    BlocksStay(plan, s.at, flow, seen, t, seen');
    DriverStays(plan, s.at, s.branches, s.driver, seen, i, s'.branches[i], t, seen');
    assert s'.branches == s.branches[i := s'.branches[i]];
  }

  /** While the driver runs nothing is hidden behind a sentinel. */
  lemma AllIsSeen(s: State)
    requires ReaderOk(s) && !s.driver.Done?
    ensures Seen(s) == Flowing(s)
  {
    NoSentinel(s.outer);
  }

  /** An ended branch has emitted all its chunks. */
  lemma EndedIsComplete(plan: seq<Block>, at: nat, bs: seq<Branch>, flow: seq<Tagged>, i: nat)
    requires at < |plan| && BranchesOk(plan, at, bs, flow) && i < |bs| && bs[i].consumer.Ended?
    ensures Complete(plan, flow, at, i)
  {
    var b, chunks := bs[i], plan[at].branches[i].chunks;
    assert BranchOk(plan[at].branches[i], b);
    assert b.accumulated + [] == b.accumulated && chunks[..|chunks|] == chunks;
    assert Of(flow, at, i) + [] == Of(flow, at, i);
  }

  /** Nothing comes from a block that has not started. */
  lemma {:induction false} NothingAhead(plan: seq<Block>, at: nat, ts: seq<Tagged>, k: nat, i: nat)
    requires TagsOk(plan, at, ts) && at < k
    ensures Of(ts, k, i) == []
  {
    if ts != [] {
      assert Last(ts).block <= at;
      NothingAhead(plan, at, Front(ts), k, i);
    }
  }

  lemma OpenedOk(plan: seq<Block>, at: nat, next: nat, flow: seq<Tagged>)
    requires TagsOk(plan, at, flow) && next == at + 1
    ensures BranchesOk(plan, next, Opened(plan, next), flow)
  {
    if next < |plan| {
      var bs := Opened(plan, next);
      forall i | 0 <= i < |bs|
        ensures BranchOk(plan[next].branches[i], bs[i])
        ensures Of(flow, next, i) + InHand(bs[i]) == bs[i].accumulated
      {
        NothingAhead(plan, at, flow, next, i);
      }
    }
  }

  /** A block of which all branches have ended is complete. */
  lemma BlocksAdvance(plan: seq<Block>, at: nat, next: nat, bs: seq<Branch>, flow: seq<Tagged>)
    requires at < |plan| && next == at + 1 && BranchesOk(plan, at, bs, flow) && AllEnded(bs)
    requires Survives(plan[at]) && BlocksOk(plan, at, flow, flow)
    ensures BlocksOk(plan, next, flow, flow)
  {
    forall i | 0 <= i < |plan[at].branches|
      ensures Complete(plan, flow, at, i)
    {
      EndedIsComplete(plan, at, bs, flow, i);
    }
    assert BlockComplete(plan, flow, at);
  }

  lemma AdvanceKeeps(plan: seq<Block>, s: State)
    requires Inv(plan, s) && Enabled(plan, s, Advance)
    ensures Inv(plan, Next(plan, s, Advance))
  {
    var s', flow, next := Next(plan, s, Advance), Flowing(s), s.at + 1;
    AllIsSeen(s);
    AllIsSeen(s');
    assert Flowing(s') == flow;
    OpenedOk(plan, s.at, next, flow);
    BlocksAdvance(plan, s.at, next, s.branches, flow);
  }

  lemma FailKeeps(plan: seq<Block>, s: State, i: nat)
    requires Inv(plan, s) && Enabled(plan, s, Fail(i))
    ensures Inv(plan, Next(plan, s, Fail(i)))
  {
    AllIsSeen(s);
    EndedIsComplete(plan, s.at, s.branches, Flowing(s), i);
  }

  lemma CloseOuterKeeps(plan: seq<Block>, s: State)
    requires Inv(plan, s) && Enabled(plan, s, CloseOuter)
    ensures Inv(plan, Next(plan, s, CloseOuter))
  {
    var s' := Next(plan, s, CloseOuter);
    QueueAppend(s.outer, Sentinel);
    assert Items(s.outer) + [] == Items(s.outer) && Coming(s.outer) + [] == Coming(s.outer);
    assert Flowing(s') == Flowing(s) && Seen(s') == Seen(s);
  }

  lemma ReadKeeps(plan: seq<Block>, s: State)
    requires Inv(plan, s) && Enabled(plan, s, Read)
    ensures Inv(plan, Next(plan, s, Read))
  {
    var s' := Next(plan, s, Read);
    match s.outer[0]
    case Item(t) =>
      AppendAssoc(s.yielded, [t], Items(s.outer[1..]));
      AppendAssoc(s.yielded, [t], Coming(s.outer[1..]));
      assert Flowing(s') == Flowing(s) && Seen(s') == Seen(s);
    case Sentinel =>
      assert s.yielded + [] == s.yielded;
      assert Flowing(s') == Flowing(s) && Seen(s') == Seen(s);
  }

  lemma NextKeeps(plan: seq<Block>, s: State, act: Act)
    requires Inv(plan, s) && Enabled(plan, s, act)
    ensures Inv(plan, Next(plan, s, act))
  {
    match act
    case Emit(i) => EmitKeeps(plan, s, i);
    case Advance => AdvanceKeeps(plan, s);
    case Fail(i) => FailKeeps(plan, s, i);
    case CloseOuter => CloseOuterKeeps(plan, s);
    case Read => ReadKeeps(plan, s);
    case Finish =>
    case _ => QuietKeeps(plan, s, act);
  }

  // --------------------------------------------------- no deadlock, and an end

  ghost predicate Stuck(plan: seq<Block>, s: State) {
    forall act :: !Enabled(plan, s, act)
  }

  /** A branch that has not ended can take a step if the outer queue has room. */
  lemma BranchCanStep(plan: seq<Block>, s: State, i: nat) returns (act: Act)
    requires Streaming(plan, s, i) && BranchOk(plan[s.at].branches[i], s.branches[i]) && |s.outer| < CAPACITY
    requires !s.branches[i].consumer.Ended?
    ensures Enabled(plan, s, act) && OfBranch(act)
  {
    var b := s.branches[i];
    match b.consumer
    case Emitting(_) => act := Emit(i);
    case Joining => act := Join(i);
    case Taking =>
      if b.inner != [] {
        act := Take(i);
      } else if b.produced < |plan[s.at].branches[i].chunks| {
        act := Put(i);
      } else {
        act := CloseInner(i);
      }
  }

  /** While the outer queue has room the run goes on without its caller. */
  lemma DriverCanStep(plan: seq<Block>, s: State) returns (act: Act)
    requires Inv(plan, s) && |s.outer| < CAPACITY && !s.driver.Done?
    ensures Enabled(plan, s, act) && act != Read && act != Finish
  {
    match s.driver
    case Closing(_) => act := CloseOuter;
    case Running =>
      if i :| 0 <= i < |s.branches| && !s.branches[i].consumer.Ended? {
        act := BranchCanStep(plan, s, i);
      } else if Survives(plan[s.at]) {
        act := Advance;
      } else {
        var f :| 0 <= f < |plan[s.at].branches| && plan[s.at].branches[f].fails;
        act := Fail(f);
      }
  }

  /** Short of the caller's return some task can go on, whatever the branches that outlive an error are doing. */
  lemma SomeoneCanStep(plan: seq<Block>, s: State) returns (act: Act)
    requires Inv(plan, s) && !s.reader.Returned?
    ensures Enabled(plan, s, act)
  {
    if s.reader.Awaiting? {
      act := Finish;
    } else if s.outer != [] {
      act := Read;
    } else {
      assert s.driver.Done? ==> Sentinels(s.outer) == 1;
      act := DriverCanStep(plan, s);
    }
  }

  lemma NoDeadlock(plan: seq<Block>, s: State)
    requires Inv(plan, s) && Stuck(plan, s)
    ensures s.reader.Returned?
  {
    if !s.reader.Returned? {
      var act := SomeoneCanStep(plan, s);
    }
  }

  function ConsumerLeft(c: Consumer): nat {
    match c
    case Taking => 3
    case Emitting(_) => 5
    case Joining => 4
    case Ended => 2
  }

  /** A bound on a branch's steps still to come: it weighs every chunk by how far it has to travel. */
  function BranchLeft(script: Script, b: Branch): int {
    4 * (|script.chunks| - b.produced) + (if b.closed then 0 else 4) + 3 * |b.inner| + ConsumerLeft(b.consumer)
  }

  function BranchesLeft(scripts: seq<Script>, bs: seq<Branch>): int
    requires |scripts| == |bs|
  {
    if bs == [] then 0 else BranchesLeft(Front(scripts), Front(bs)) + BranchLeft(Last(scripts), Last(bs))
  }

  function Work(plan: seq<Block>, n: nat): int
    requires n <= |plan|
    decreases |plan| - n
  {
    if n == |plan| then 0
    else BranchesLeft(plan[n].branches, Opened(plan, n)) + 1 + Work(plan, n + 1)
  }

  function DriverLeft(d: Driver): nat {
    match d
    case Running => 4
    case Closing(_) => 2
    case Done(_) => 0
  }

  function ReaderLeft(r: Reader): nat {
    match r
    case Reading => 2
    case Awaiting => 1
    case Returned(_) => 0
  }

  /** A bound on the steps still to come. */
  function Left(plan: seq<Block>, s: State): int {
    StreamsLeft(plan, s.at, s.branches) + |s.outer| + DriverLeft(s.driver) + ReaderLeft(s.reader)
  }

  function StreamsLeft(plan: seq<Block>, at: nat, bs: seq<Branch>): int {
    if at < |plan| && |bs| == |plan[at].branches| then BranchesLeft(plan[at].branches, bs) + Work(plan, at + 1) else 0
  }

  /** As many branches as the block has, none with more produced than there is. */
  ghost predicate Shaped(plan: seq<Block>, at: nat, bs: seq<Branch>) {
    at < |plan| ==>
      && |bs| == |plan[at].branches|
      && forall i :: 0 <= i < |bs| ==> bs[i].produced <= |plan[at].branches[i].chunks|
  }

  lemma InvShaped(plan: seq<Block>, s: State)
    requires Inv(plan, s)
    ensures Shaped(plan, s.at, s.branches)
  {
    if s.at < |plan| {
      assert forall i :: 0 <= i < |s.branches| ==> BranchOk(plan[s.at].branches[i], s.branches[i]);
    }
  }

  lemma {:induction false} OneBranchLeft(scripts: seq<Script>, bs: seq<Branch>, i: nat, b: Branch)
    requires |scripts| == |bs| && i < |bs|
    ensures BranchesLeft(scripts, bs[i := b])
         == BranchesLeft(scripts, bs) - BranchLeft(scripts[i], bs[i]) + BranchLeft(scripts[i], b)
    decreases |bs|
  {
    var bs' := bs[i := b];
    if i == |bs| - 1 {
      assert Front(bs') == Front(bs);
    } else {
      assert Front(bs') == Front(bs)[i := b] && Last(bs') == Last(bs);
      OneBranchLeft(Front(scripts), Front(bs), i, b);
    }
  }

  lemma {:induction false} BranchesLeftBound(scripts: seq<Script>, bs: seq<Branch>)
    requires |scripts| == |bs|
    requires forall i :: 0 <= i < |bs| ==> bs[i].produced <= |scripts[i].chunks|
    ensures BranchesLeft(scripts, bs) >= 0
    decreases |bs|
  {
    if bs != [] {
      BranchesLeftBound(Front(scripts), Front(bs));
    }
  }

  lemma {:induction false} WorkBound(plan: seq<Block>, n: nat)
    requires n <= |plan|
    ensures Work(plan, n) >= 0
    decreases |plan| - n
  {
    if n < |plan| {
      WorkBound(plan, n + 1);
      BranchesLeftBound(plan[n].branches, Opened(plan, n));
    }
  }

  lemma LeftBound(plan: seq<Block>, at: nat, bs: seq<Branch>)
    requires Shaped(plan, at, bs)
    ensures StreamsLeft(plan, at, bs) >= 0
  {
    if at < |plan| {
      BranchesLeftBound(plan[at].branches, bs);
      WorkBound(plan, at + 1);
    }
  }

  /** Each step of a branch takes a chunk one place further; an emitted chunk counts one in the outer queue. */
  lemma BranchStepLess(script: Script, b: Branch, act: Act)
    requires OfBranch(act) && b.produced <= |script.chunks|
    requires match act
             case Put(_) => b.produced < |script.chunks|
             case CloseInner(_) => !b.closed
             case Take(_) => b.consumer.Taking? && b.inner != []
             case Emit(_) => b.consumer.Emitting?
             case Join(_) => b.consumer.Joining?
             case _ => false
    ensures BranchLeft(script, BranchNext(script, b, act)) + (if act.Emit? then 1 else 0) < BranchLeft(script, b)
  {
  }

  lemma BranchStepCounts(plan: seq<Block>, s: State, act: Act)
    requires Shaped(plan, s.at, s.branches) && Enabled(plan, s, act) && OfBranch(act)
    ensures Left(plan, Next(plan, s, act)) < Left(plan, s)
  {
    var scripts, i := plan[s.at].branches, act.i;
    var b := BranchNext(scripts[i], s.branches[i], act);
    BranchStepLess(scripts[i], s.branches[i], act);
    OneBranchLeft(scripts, s.branches, i, b);
    BranchStepOnly(plan, s, act, b);
  }

  /** A branch's step changes that branch, and emitting puts one chunk into the outer queue. */
  lemma BranchStepOnly(plan: seq<Block>, s: State, act: Act, b: Branch)
    requires Enabled(plan, s, act) && OfBranch(act) && act.i < |s.branches|
    requires b == BranchNext(plan[s.at].branches[act.i], s.branches[act.i], act)
    ensures var s' := Next(plan, s, act);
            && s'.at == s.at && s'.branches == s.branches[act.i := b] && s'.driver == s.driver && s'.reader == s.reader
            && |s'.outer| == |s.outer| + if act.Emit? then 1 else 0
  {
  }

  lemma AdvanceCounts(plan: seq<Block>, s: State)
    requires Shaped(plan, s.at, s.branches) && Enabled(plan, s, Advance)
    ensures Left(plan, Next(plan, s, Advance)) < Left(plan, s)
  {
    var next := s.at + 1;
    BranchesLeftBound(plan[s.at].branches, s.branches);
    assert next < |plan| ==> StreamsLeft(plan, next, Opened(plan, next)) == Work(plan, next) - 1;
  }

  lemma StepCounts(plan: seq<Block>, s: State, act: Act)
    requires Shaped(plan, s.at, s.branches) && Enabled(plan, s, act)
    ensures Left(plan, Next(plan, s, act)) < Left(plan, s)
  {
    if OfBranch(act) {
      BranchStepCounts(plan, s, act);
    } else if act.Advance? {
      AdvanceCounts(plan, s);
    }
  }

  lemma EveryStepCounts(plan: seq<Block>, s: State, act: Act)
    requires Inv(plan, s) && Enabled(plan, s, act)
    ensures 0 <= Left(plan, Next(plan, s, act)) < Left(plan, s)
  {
    var s' := Next(plan, s, act);
    NextKeeps(plan, s, act);
    InvShaped(plan, s);
    InvShaped(plan, s');
    StepCounts(plan, s, act);
    LeftBound(plan, s'.at, s'.branches);
  }

  /** A schedule: steps of all coroutines in any order, each possible when its turn comes. */
  predicate Schedule(plan: seq<Block>, acts: seq<Act>) {
    acts != [] ==> Schedule(plan, Front(acts)) && Enabled(plan, Play(plan, Front(acts)), Last(acts))
  }

  function Play(plan: seq<Block>, acts: seq<Act>): State {
    if acts == [] then Start(plan)
    else
      var s := Play(plan, Front(acts));
      if Enabled(plan, s, Last(acts)) then Next(plan, s, Last(acts)) else s
  }

  lemma {:induction false} PlayKeeps(plan: seq<Block>, acts: seq<Act>)
    requires Schedule(plan, acts)
    ensures Inv(plan, Play(plan, acts))
    ensures |acts| + Left(plan, Play(plan, acts)) <= Left(plan, Start(plan))
  {
    StartOk(plan);
    if acts != [] {
      PlayKeeps(plan, Front(acts));
      NextKeeps(plan, Play(plan, Front(acts)), Last(acts));
      EveryStepCounts(plan, Play(plan, Front(acts)), Last(acts));
    }
  }

  // ---------------------------------------------------------------- main results

  /** The queues are within bounds, and what a branch has produced is what was taken and what is queued. */
  ghost predicate WithinBounds(plan: seq<Block>, s: State) {
    && |s.outer| <= 32
    && forall i: nat :: Streaming(plan, s, i) ==> BranchWithinBounds(plan[s.at].branches[i], s.branches[i])
  }

  ghost predicate BranchWithinBounds(script: Script, b: Branch) {
    && |b.inner| <= 32 && b.produced <= |script.chunks|
    && b.accumulated + Items(b.inner) == script.chunks[..b.produced]
    && (b.consumer.Ended? ==> b.accumulated == script.chunks)
  }

  /** What is yielded is an interleaving, block by block, of prefixes of the branches' chunks. */
  ghost predicate Interleaved(plan: seq<Block>, ts: seq<Tagged>) {
    && TagsOk(plan, |plan|, ts)
    && forall k, i :: 0 <= k < |plan| && 0 <= i < |plan[k].branches| ==> Of(ts, k, i) <= plan[k].branches[i].chunks
  }

  lemma OfPrefix(ts: seq<Tagged>, all: seq<Tagged>, k: nat, i: nat)
    requires ts <= all
    ensures Of(ts, k, i) <= Of(all, k, i)
  {
    assert all == ts + all[|ts|..];
    OfConcat(ts, all[|ts|..], k, i);
  }

  lemma EmittedInOrder(plan: seq<Block>, s: State, k: nat, i: nat)
    requires Inv(plan, s) && k < |plan| && i < |plan[k].branches|
    ensures Of(Flowing(s), k, i) <= plan[k].branches[i].chunks
  {
    var flow := Flowing(s);
    if k < s.at {
      assert BlockComplete(plan, flow, k) && Complete(plan, flow, k, i);
    } else if k == s.at {
      var b, chunks := s.branches[i], plan[k].branches[i].chunks;
      assert BranchOk(plan[k].branches[i], b);
      assert Of(flow, k, i) <= b.accumulated <= b.accumulated + Items(b.inner) <= chunks;
    } else {
      NothingAhead(plan, s.at, flow, k, i);
    }
  }

  lemma BoundsHold(plan: seq<Block>, s: State)
    requires Inv(plan, s)
    ensures WithinBounds(plan, s)
  {
    forall i: nat | Streaming(plan, s, i)
      ensures BranchWithinBounds(plan[s.at].branches[i], s.branches[i])
    {
      var script, b := plan[s.at].branches[i], s.branches[i];
      assert BranchOk(script, b);
      if b.consumer.Ended? {
        assert b.accumulated + [] == b.accumulated && script.chunks[..|script.chunks|] == script.chunks;
      }
    }
  }

  lemma TagsPrefix(plan: seq<Block>, at: nat, ts: seq<Tagged>, all: seq<Tagged>)
    requires ts <= all && TagsOk(plan, at, all) && at <= |plan|
    ensures TagsOk(plan, |plan|, ts)
  {
    assert forall j :: 0 <= j < |ts| ==> ts[j] == all[j];
  }

  lemma YieldsInterleaved(plan: seq<Block>, s: State)
    requires Inv(plan, s)
    ensures Interleaved(plan, s.yielded)
  {
    assert s.yielded <= Flowing(s);
    TagsPrefix(plan, s.at, s.yielded, Flowing(s));
    forall k, i | 0 <= k < |plan| && 0 <= i < |plan[k].branches|
      ensures Of(s.yielded, k, i) <= plan[k].branches[i].chunks
    {
      EmittedInOrder(plan, s, k, i);
      OfPrefix(s.yielded, Flowing(s), k, i);
    }
  }

  /**
   * In every schedule the queues stay within bounds, and the caller has seen, block by block, an interleaving
   * of the branches' chunks: each branch's in order, without gap or repeat.
   */
  lemma StreamSafety(plan: seq<Block>, acts: seq<Act>)
    requires Schedule(plan, acts)
    ensures WithinBounds(plan, Play(plan, acts)) && Interleaved(plan, Play(plan, acts).yielded)
  {
    PlayKeeps(plan, acts);
    BoundsHold(plan, Play(plan, acts));
    YieldsInterleaved(plan, Play(plan, acts));
  }

  /** Whoever puts into a queue waits exactly while it holds 32 items; whoever takes, exactly while it is empty. */
  ghost predicate WaitsWhenFull(plan: seq<Block>, s: State) {
    && (forall i: nat :: Streaming(plan, s, i) ==> BranchWaitsWhenFull(plan, s, i))
    && (s.driver.Closing? ==> (Enabled(plan, s, CloseOuter) <==> |s.outer| != 32))
    && (s.reader.Reading? ==> (Enabled(plan, s, Read) <==> |s.outer| != 0))
  }

  ghost predicate BranchWaitsWhenFull(plan: seq<Block>, s: State, i: nat)
    requires Streaming(plan, s, i)
  {
    var b := s.branches[i];
    && (!b.closed ==> (Enabled(plan, s, Put(i)) || Enabled(plan, s, CloseInner(i)) <==> |b.inner| != 32))
    && (b.consumer.Emitting? ==> (Enabled(plan, s, Emit(i)) <==> |s.outer| != 32))
    && (b.consumer.Taking? ==> (Enabled(plan, s, Take(i)) <==> |b.inner| != 0))
  }

  lemma BranchWaits(plan: seq<Block>, s: State, i: nat)
    requires Streaming(plan, s, i) && BranchOk(plan[s.at].branches[i], s.branches[i]) && |s.outer| <= CAPACITY
    ensures BranchWaitsWhenFull(plan, s, i)
  {
  }

  lemma WaitingHolds(plan: seq<Block>, s: State)
    requires Inv(plan, s)
    ensures WaitsWhenFull(plan, s)
  {
    forall i: nat | Streaming(plan, s, i)
      ensures BranchWaitsWhenFull(plan, s, i)
    {
      BranchWaits(plan, s, i);
    }
  }

  /** In every schedule nobody waits for room but at a queue of 32 items, nor for an item but at an empty one. */
  lemma PutsWaitExactly(plan: seq<Block>, acts: seq<Act>)
    requires Schedule(plan, acts)
    ensures WaitsWhenFull(plan, Play(plan, acts))
  {
    PlayKeeps(plan, acts);
    WaitingHolds(plan, Play(plan, acts));
  }

  /**
   * In every schedule, the moment a failing branch of a PARALLEL block has delivered everything and ended, its error
   * can end the run; and every branch's next step stays as possible as it was.
   */
  lemma ErrorEndsTheRun(plan: seq<Block>, acts: seq<Act>, i: nat)
    requires Schedule(plan, acts)
    requires var s := Play(plan, acts);
             && s.driver.Running? && Streaming(plan, s, i) && plan[s.at].mode.Parallel?
             && plan[s.at].branches[i].fails && s.branches[i].consumer.Ended?
    ensures var s, s' := Play(plan, acts), Play(plan, acts + [Fail(i)]);
            && Schedule(plan, acts + [Fail(i)]) && s'.driver == Closing(Some(i)) && s'.branches == s.branches
            && forall act :: OfBranch(act) && Enabled(plan, s, act) ==> Enabled(plan, s', act)
  {
    assert Front(acts + [Fail(i)]) == acts;
  }

  /** In every schedule the run waits for its caller only once 32 items are there to be read. */
  lemma RunsAheadOfItsCaller(plan: seq<Block>, acts: seq<Act>) returns (act: Act)
    requires Schedule(plan, acts)
    requires |Play(plan, acts).outer| != 32 && !Play(plan, acts).driver.Done?
    ensures Enabled(plan, Play(plan, acts), act) && act != Read && act != Finish
  {
    PlayKeeps(plan, acts);
    act := DriverCanStep(plan, Play(plan, acts));
  }

  /** A queue does fill up: 32 chunks may be produced before the first is taken. */
  lemma {:induction false} QueueFills(plan: seq<Block>, n: nat) returns (acts: seq<Act>)
    requires plan != [] && plan[0].branches != [] && n <= 32 && n <= |plan[0].branches[0].chunks|
    ensures Schedule(plan, acts) && |acts| == n
    ensures var s := Play(plan, acts);
            && Streaming(plan, s, 0) && s.at == 0 && !s.branches[0].closed
            && |s.branches[0].inner| == s.branches[0].produced == n && s.branches[0].consumer.Taking?
  {
    acts := [];
    if n > 0 {
      var before := QueueFills(plan, n - 1);
      acts := before + [Put(0)];
      assert Front(acts) == before;
    }
  }

  /** The run ended in block `n`, on the error of its branch `f`: all before it is delivered, and the branch too. */
  ghost predicate FailedAt(plan: seq<Block>, ts: seq<Tagged>, n: nat, f: nat) {
    && n < |plan| && f < |plan[n].branches| && plan[n].mode.Parallel? && plan[n].branches[f].fails
    && (forall k :: 0 <= k < n ==> Survives(plan[k]) && BlockComplete(plan, ts, k))
    && Complete(plan, ts, n, f)
    && forall j :: 0 <= j < |ts| ==> ts[j].block <= n
  }

  /** What the caller has got when the run is over. */
  ghost predicate Delivered(plan: seq<Block>, ts: seq<Tagged>, ok: bool) {
    if ok then forall k :: 0 <= k < |plan| ==> BlockComplete(plan, ts, k)
    else exists n: nat, f: nat :: FailedAt(plan, ts, n, f)
  }

  lemma ReturnedDelivers(plan: seq<Block>, s: State)
    requires Inv(plan, s) && s.reader.Returned?
    ensures s.reader.ok == AllSurvive(plan) && Delivered(plan, s.yielded, s.reader.ok)
  {
    assert forall j :: 0 <= j < |s.yielded| ==> s.yielded[j] == Flowing(s)[j];
    if s.driver.failed.Some? {
      assert FailedAt(plan, s.yielded, s.at, s.driver.failed.value);
      assert !Survives(plan[s.at]);
    }
  }

  /**
   * Stream delivery. No schedule is longer than `Left` of the start, and one that cannot go on has the caller
   * returned to: with every chunk of every branch, each branch's in order, if no error ends the run; and
   * otherwise with all of the blocks before, and all the failing branch's chunks before its error.
   */
  lemma StreamDelivers(plan: seq<Block>, acts: seq<Act>)
    requires Schedule(plan, acts)
    ensures |acts| <= Left(plan, Start(plan))
    ensures var s := Play(plan, acts);
            Stuck(plan, s) ==>
              && s.reader == Returned(AllSurvive(plan))
              && Delivered(plan, s.yielded, AllSurvive(plan))
              && Interleaved(plan, s.yielded)
  {
    PlayKeeps(plan, acts);
    StreamSafety(plan, acts);
    var s := Play(plan, acts);
    InvShaped(plan, s);
    LeftBound(plan, s.at, s.branches);
    if Stuck(plan, s) {
      NoDeadlock(plan, s);
      ReturnedDelivers(plan, s);
    }
  }
}
