/** The saga engine: steps, the run of a list of steps with reverse-order compensation, and the
    create, delete and update sagas.

    A step is two straight-line scripts of repository calls.  The outcome of the n-th call of a run
    is the n-th answer of an oracle, except that a call the store does not accept fails anyway. */
module Saga {
  import opened Stores

  datatype StepName =
    | PostgresCreate | MilvusCreate | Neo4jCreate
    | Neo4jDelete | MilvusDelete | PostgresDelete
    | PostgresUpdate

  datatype Step = Step(name: StepName, execute: seq<Op>, compensate: seq<Op>)

  type Oracle = nat -> bool

  datatype Event = Execute(name: StepName) | Compensate(name: StepName)

  /** The stores, the number of calls made so far, the state after every call, and the steps begun. */
  datatype World = World(stores: Stores, calls: nat, history: seq<Stores>, events: seq<Event>)

  datatype Result = Result(
    success: bool, executed: seq<StepName>, compensated: seq<StepName>, failed: Option<StepName>)

  const STARTED := Result(true, [], [], None)

  /** What the caller of a saga sees: a result, or the exception of the embedding service. */
  datatype Outcome = Returned(result: Result) | Raised

  // ---------------------------------------------------------------- running steps

  function Call(f: Oracle, w: World, op: Op): (World, bool) {
    var ok := f(w.calls) && Accepts(op, w.stores);
    var s := if ok then Apply(op, w.stores) else w.stores;
    (World(s, w.calls + 1, w.history + [s], w.events), ok)
  }

  function RunScript(f: Oracle, w: World, ops: seq<Op>, i: nat): (World, bool)
    requires i <= |ops|
    decreases |ops| - i
  {
    if i == |ops| then (w, true) else
      var (w1, ok) := Call(f, w, ops[i]);
      if ok then RunScript(f, w1, ops, i + 1) else (w1, false)
  }

  function ExecuteStep(f: Oracle, w: World, step: Step): (World, bool) {
    RunScript(f, w.(events := w.events + [Execute(step.name)]), step.execute, 0)
  }

  function CompensateStep(f: Oracle, w: World, step: Step): (World, bool) {
    RunScript(f, w.(events := w.events + [Compensate(step.name)]), step.compensate, 0)
  }

  /** Compensate steps[n-1], ..., steps[0]; a failing compensation does not stop the others. */
  function CompensateDown(f: Oracle, w: World, steps: seq<Step>, n: nat, result: Result): (World, Result)
    requires n <= |steps|
    decreases n
  {
    if n == 0 then (w, result) else
      var (w1, ok) := CompensateStep(f, w, steps[n - 1]);
      CompensateDown(f, w1, steps, n - 1,
        if ok then result.(compensated := result.compensated + [steps[n - 1].name]) else result)
  }

  function ExecuteFrom(f: Oracle, w: World, steps: seq<Step>, i: nat, result: Result): (World, Result)
    requires i <= |steps|
    decreases |steps| - i
  {
    if i == |steps| then (w, result) else
      var (w1, ok) := ExecuteStep(f, w, steps[i]);
      if ok then
        ExecuteFrom(f, w1, steps, i + 1, result.(executed := result.executed + [steps[i].name]))
      else
        CompensateDown(f, w1, steps, i, result.(success := false, failed := Some(steps[i].name)))
  }

  function RunSteps(f: Oracle, w: World, steps: seq<Step>): (World, Result) {
    ExecuteFrom(f, w, steps, 0, STARTED)
  }

  // ---------------------------------------------------------------- the seven steps

  datatype Embeddings = Embeddings(dense: seq<Vector>, sparse: seq<Vector>)

  /** The embedding service: none, one that answers for a list of texts, or one that raises. */
  datatype Encoder = NoService | Encodes(encode: seq<string> -> Embeddings) | EncoderRaises

  datatype Encoded = Ready(embeddings: Option<Embeddings>) | Exception

  function Texts(chunks: seq<Chunk>): (texts: seq<string>)
    ensures |texts| == |chunks|
    ensures forall i :: 0 <= i < |chunks| ==> texts[i] == chunks[i].text
  {
    seq(|chunks|, i requires 0 <= i < |chunks| => chunks[i].text)
  }

  /** Embeddings given by the caller win; otherwise the service encodes the texts, if there are any. */
  function Encode(given: Option<Embeddings>, encoder: Encoder, chunks: seq<Chunk>): Encoded {
    if given.Some? || encoder.NoService? || chunks == [] then Ready(given)
    else if encoder.EncoderRaises? then Exception
    else Ready(Some(encoder.encode(Texts(chunks))))
  }

  function VectorRows(d: DocUuid, chunks: seq<Chunk>, e: Embeddings): (rows: seq<VectorRow>)
    requires |chunks| <= |e.dense| && |chunks| <= |e.sparse|
    ensures |rows| == |chunks|
    ensures forall i :: 0 <= i < |rows| ==> rows[i].docUuid == d && rows[i].chunkUuid == chunks[i].chunkUuid
  {
    seq(|chunks|, i requires 0 <= i < |chunks| =>
      VectorRow(chunks[i].chunkUuid, d, e.dense[i], e.sparse[i], chunks[i].text))
  }

  function ChunkIds(chunks: seq<Chunk>): (ids: seq<ChunkUuid>)
    ensures |ids| == |chunks|
    ensures forall i :: 0 <= i < |ids| ==> ids[i] == chunks[i].chunkUuid
  {
    seq(|chunks|, i requires 0 <= i < |chunks| => chunks[i].chunkUuid)
  }

  function PostgresCreateStep(d: DocUuid, doc: Document, chunks: seq<Chunk>): Step {
    Step(PostgresCreate, [CreateDocument(doc), CreateChunks(chunks)], [DeleteDocument(d)])
  }

  function MilvusCreateStep(d: DocUuid, chunks: seq<Chunk>, embeddings: Option<Embeddings>): Step {
    Step(MilvusCreate,
      match embeddings
      case None => [Raise]
      case Some(e) =>
        if |chunks| <= |e.dense| && |chunks| <= |e.sparse|
        then [InsertVectors(VectorRows(d, chunks, e))]
        else [Raise],
      [DeleteVectors(d)])
  }

  function Neo4jCreateStep(d: DocUuid, chunks: seq<Chunk>): Step {
    Step(Neo4jCreate,
      [CreateDocNode(d), CreateChunkNodes(ChunkIds(chunks)), CreateEdges(d, ChunkIds(chunks))],
      [DeleteGraph(d)])
  }

  // The compensations of the delete steps call no repository and report success.

  function Neo4jDeleteStep(d: DocUuid): Step {
    Step(Neo4jDelete, [GetGraph(d), DeleteGraph(d)], [])
  }

  function MilvusDeleteStep(d: DocUuid): Step {
    Step(MilvusDelete, [DeleteVectors(d)], [])
  }

  // No saga compensates the last two steps: one is last in its list, the other in no list.

  function PostgresDeleteStep(d: DocUuid): Step {
    Step(PostgresDelete, [GetDocument(d), GetChunks(d), DeleteDocument(d)], [])
  }

  function PostgresUpdateStep(d: DocUuid, doc: Document, chunks: seq<Chunk>): Step {
    Step(PostgresUpdate,
      [GetDocument(d), GetChunks(d), UpdateDocument(d, doc), DeleteChunks(d)]
        + if chunks == [] then [] else [CreateChunks(chunks)],
      [])
  }

  // ---------------------------------------------------------------- the three sagas

  datatype Request =
    | CreateSaga(doc: Document, chunks: seq<Chunk>, given: Option<Embeddings>, encoder: Encoder)
    | DeleteSaga(docUuid: DocUuid)
    | UpdateSaga(docUuid: DocUuid, doc: Document, chunks: seq<Chunk>, given: Option<Embeddings>, encoder: Encoder)
  {
    function Doc(): DocUuid {
      if CreateSaga? then doc.docUuid else docUuid
    }

    /** The request builders give every chunk and the document record the id of the document. */
    ghost predicate Valid() {
      !DeleteSaga? ==> doc.docUuid == Doc() && forall c :: c in chunks ==> c.docUuid == Doc()
    }
  }

  function CreateSteps(doc: Document, chunks: seq<Chunk>, e: Option<Embeddings>): (steps: seq<Step>)
    ensures |steps| == 3
  {
    var d := doc.docUuid;
    [PostgresCreateStep(d, doc, chunks), MilvusCreateStep(d, chunks, e), Neo4jCreateStep(d, chunks)]
  }

  function DeleteSteps(d: DocUuid): (steps: seq<Step>)
    ensures |steps| == 3
  {
    [Neo4jDeleteStep(d), MilvusDeleteStep(d), PostgresDeleteStep(d)]
  }

  function ClearSteps(d: DocUuid): (steps: seq<Step>)
    ensures |steps| == 2
  {
    [Neo4jDeleteStep(d), MilvusDeleteStep(d)]
  }

  function RebuildSteps(d: DocUuid, chunks: seq<Chunk>, e: Option<Embeddings>): (steps: seq<Step>)
    ensures |steps| == 2
  {
    [MilvusCreateStep(d, chunks, e), Neo4jCreateStep(d, chunks)]
  }

  function RunCreate(f: Oracle, w: World, req: Request): (World, Outcome)
    requires req.CreateSaga?
  {
    match Encode(req.given, req.encoder, req.chunks)
    case Exception => (w, Raised)
    case Ready(e) =>
      var (w1, r) := RunSteps(f, w, CreateSteps(req.doc, req.chunks, e));
      (w1, Returned(r))
  }

  function RunDelete(f: Oracle, w: World, d: DocUuid): (World, Outcome) {
    var (w1, r) := RunSteps(f, w, DeleteSteps(d));
    (w1, Returned(r))
  }

  /** Phase 3 of an update, after phases 1 and 2 succeeded with result r1. */
  function Rebuild(f: Oracle, w: World, req: Request, r1: Result): (World, Outcome)
    requires req.UpdateSaga?
  {
    match Encode(req.given, req.encoder, req.chunks)
    case Exception => (w, Raised)
    case Ready(e) =>
      var (w3, r3) := RunSteps(f, w, RebuildSteps(req.docUuid, req.chunks, e));
      (w3, Returned(Result(r3.success, r1.executed + [PostgresUpdate] + r3.executed, r3.compensated, r3.failed)))
  }

  function RunUpdate(f: Oracle, w: World, req: Request): (World, Outcome)
    requires req.UpdateSaga?
  {
    var clear := ClearSteps(req.docUuid);
    var (w1, r1) := RunSteps(f, w, clear);
    if !r1.success then (w1, Returned(r1)) else
      var (w2, ok) := ExecuteStep(f, w1, PostgresUpdateStep(req.docUuid, req.doc, req.chunks));
      if ok then Rebuild(f, w2, req, r1) else
        // the compensations run, but their names are not reported
        var (w3, _) := CompensateDown(f, w2, clear, 2, r1);
        (w3, Returned(Result(false, r1.executed, [], Some(PostgresUpdate))))
  }

  function RunSaga(f: Oracle, w: World, req: Request): (World, Outcome) {
    match req
    case CreateSaga(_, _, _, _) => RunCreate(f, w, req)
    case DeleteSaga(d) => RunDelete(f, w, d)
    case UpdateSaga(_, _, _, _, _) => RunUpdate(f, w, req)
  }
}
