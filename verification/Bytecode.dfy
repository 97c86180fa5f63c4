/** The flat instruction set, and the world of stage functions a program is compiled from and run in. */
module Bytecode {
  import opened Primitives
  import opened Contexts

  datatype Instr =
    | EmitPipelineStart
    | EmitPipelineEnd
    | EmitStepStart(nid: string)
    | EmitStepEnd(nid: string)
    | EmitBranch(branchIds: seq<string>)
    | Checkpoint(nid: string)
    | ValidateInput(nid: string)
    | Call(nid: string)
    | ValidateOutput(nid: string)
    | Fork(branchIds: seq<string>, mode: ForkMode)
    | Join
    | Route(routeMap: map<string, int>)
    | Jump(target: int)

  type Table = map<string, Fn>

  datatype Program = Program(
    code: seq<Instr>,
    table: Table,
    inputs: map<string, Schema>,
    outputs: map<string, Schema>,
    version: string)

  /** The attributes the compiler reads off an object; `isStage` is the presence of the `@stage` mark. */
  datatype Attrs = Attrs(
    isStage: bool,
    name: string,
    qualname: string,
    readKeys: Option<set<Key>>,
    writeKeys: Option<set<Key>>,
    input: Option<Schema>,
    output: Option<Schema>)

  /** What awaiting a stage gives: a context, a `Send`, or an exception. */
  datatype StageResult = Returned(ctx: Context) | Sent(route: string, patch: Data) | Raised

  /**
   * Everything outside fluxio: the objects' attributes, what each stage does when called under a
   * node id (a STREAM stage stores its chunks under a key built from it), what each schema accepts,
   * and the digest that serves as program version.
   */
  datatype World = World(
    attrs: Fn -> Attrs,
    call: (string, Fn, Context) -> StageResult,
    conforms: (Schema, Data) -> bool,
    digest: seq<Instr> -> string)

  /** `input_schemas` / `output_schemas` of a finished symbol table. */
  function InputsOf(w: World, t: Table): map<string, Schema> {
    map nid | nid in t && w.attrs(t[nid]).input.Some? :: w.attrs(t[nid]).input.value
  }

  function OutputsOf(w: World, t: Table): map<string, Schema> {
    map nid | nid in t && w.attrs(t[nid]).output.Some? :: w.attrs(t[nid]).output.value
  }
}
