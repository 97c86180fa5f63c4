/** The coroutines of one streaming run, on the state they share. */
module StreamRuns {
  import opened Primitives
  import opened Streams
  import StreamOrder

  /** The queues and lists that the coroutines of one streaming run share and update in place. */
  class StreamRun {
    const plan: seq<Block>
    var at: nat
    var branches: seq<Branch>
    var driver: Driver
    var outer: seq<Cell<Tagged>>
    var yielded: seq<Tagged>
    var reader: Reader

    constructor (plan: seq<Block>)
      ensures this.plan == plan && Value() == Start(plan)
    {
      this.plan := plan;
      at, branches, outer, yielded := 0, Opened(plan, 0), [], [];
      driver := if plan == [] then Closing(None) else Running;
      reader := Reading;
    }

    function Value(): State
      reads this
    {
      State(at, branches, driver, outer, yielded, reader)
    }

    method Step(act: Act)
      requires Enabled(plan, Value(), act)
      modifies this
      ensures Value() == Next(plan, old(Value()), act)
    {
      match act
      case Advance =>
        at := at + 1;
        branches := Opened(plan, at);
        driver := if at < |plan| then Running else Closing(None);
      case Fail(i) =>
        driver := Closing(Some(i));
      case CloseOuter =>
        outer := outer + [Sentinel];
        driver := Done(driver.failed);
      case Read =>
        var cell := outer[0];
        outer := outer[1..];
        match cell {
          case Item(t) => yielded := yielded + [t];
          case Sentinel => reader := Awaiting;
        }
      case Finish =>
        reader := Returned(driver.failed.None?);
      case _ =>
        BranchStep(act);
    }

    /** A step of a branch's producer or consumer. */
    method BranchStep(act: Act)
      requires Enabled(plan, Value(), act) && OfBranch(act)
      modifies this
      ensures Value() == Next(plan, old(Value()), act)
    {
      var i := act.i;
      var b := branches[i];
      match act {
        case Put(_) =>
          b := b.(inner := b.inner + [Item(plan[at].branches[i].chunks[b.produced])], produced := b.produced + 1);
        case CloseInner(_) =>
          b := b.(inner := b.inner + [Sentinel], closed := true);
        case Take(_) =>
          var cell := b.inner[0];
          b := b.(inner := b.inner[1..]);
          match cell {
            case Item(chunk) => b := b.(accumulated := b.accumulated + [chunk], consumer := Emitting(chunk));
            case Sentinel => b := b.(consumer := Joining);
          }
        case Emit(_) =>
          outer := outer + [Item(Tagged(b.consumer.chunk, at, i))];
          b := b.(consumer := Taking);
        case Join(_) =>
          b := b.(consumer := Ended);
      }
      branches := branches[i := b];
    }

    /** Whatever coroutine the event loop picks each time, the caller is returned to, with everything delivered. */
    method Run() returns (ok: bool)
      requires Value() == Start(plan)
      modifies this
      ensures ok == AllSurvive(plan)
      ensures Delivered(plan, yielded, ok) && Interleaved(plan, yielded)
      ensures StreamOrder.Sequential(plan) ==> StreamOrder.Values(yielded) == StreamOrder.Expected(plan)
    {
      StartOk(plan);
      while !reader.Returned?
        invariant Inv(plan, Value())
        decreases Left(plan, Value())
      {
        ghost var can := SomeoneCanStep(plan, Value());
        var act :| Enabled(plan, Value(), act);
        NextKeeps(plan, Value(), act);
        EveryStepCounts(plan, Value(), act);
        Step(act);
      }
      YieldsInterleaved(plan, Value());
      ReturnedDelivers(plan, Value());
      ok := reader.ok;
      assert StreamOrder.Sequential(plan) ==> StreamOrder.Values(yielded) == StreamOrder.Expected(plan) by {
        if StreamOrder.Sequential(plan) {
          StreamOrder.DeliveredInOrder(plan, yielded);
        }
      }
    }
  }
}
