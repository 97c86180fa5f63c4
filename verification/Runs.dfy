/** What a run shows the outside: its main-line callback events, its errors and its outcome. */
module Runs {
  import opened Contexts

  /**
   * The callbacks of the main line, in order. The spans of parallel branches interleave as the
   * scheduler pleases and are not part of the trace. Node ids are never empty.
   */
  datatype Event =
    | PipelineStarted
    | PipelineEnded
    | StepStarted(nid: string)
    | StepEnded(nid: string)
    | Branched(ids: seq<string>)
    | Routed(step: string, route: string)
    | Errored(step: string)

  datatype Error =
    | InputInvalid(nid: string)
    | OutputInvalid(nid: string)
    | StageRaised(nid: string)
    | BranchFailed
    | MergeFailed
    | RouteWithoutSend
    | UnknownRoute(route: string)
    | UnknownNode(nid: string)

  /** `pending_route` with `pending_route_step`: set and cleared together. */
  datatype Pending = Pending(step: string, route: string)

  datatype Outcome =
    | Success(ctx: Context, trace: seq<Event>)
    | Failure(error: Error, trace: seq<Event>)

  const NO_STEP := "<pipeline>"
}
