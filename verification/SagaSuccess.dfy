/** Exactly when a create or an update succeeds: the condition on the request, the stores and the answers
    of the repositories, before the run. */
module SagaSuccess {
  import opened Stores
  import opened Saga
  import opened SagaRollback
  import opened SagaOutcome
  import opened SagaOrphans
  import opened SagaDeletes
  import opened SagaEffects
  import opened SagaHealing
  import opened SagaContents

  /** Calls n, ..., n + count - 1 succeed. */
  predicate Up(f: Oracle, n: nat, count: nat) {
    forall i :: n <= i < n + count ==> f(i)
  }

  /** There is an embedding for every chunk, given or from the service. */
  ghost predicate Embeddable(req: Request)
    requires !req.DeleteSaga?
  {
    exists e :: Supplied(req, e) && |req.chunks| <= |e.dense| && |req.chunks| <= |e.sparse|
  }

  /** The chunk ids are different, and none is the id of a chunk of another document. */
  ghost predicate IdsFree(req: Request, s: Stores)
    requires !req.DeleteSaga?
  {
    && DistinctIds(req.chunks)
    && forall r :: r in s.chunkRows && r.docUuid != req.Doc() ==> !NamesId(req.chunks, r.chunkUuid)
  }

  lemma {:induction false} EmbeddableIff(req: Request)
    requires !req.DeleteSaga?
    ensures var encoded := Encode(req.given, req.encoder, req.chunks);
      Embeddable(req) <==> encoded.Ready? && Embedded(encoded.embeddings, req.chunks)
  {
    var encoded := Encode(req.given, req.encoder, req.chunks);
    if encoded.Ready? && encoded.embeddings.Some? {
      EncodedIsSupplied(req, encoded.embeddings);
    }
  }

  lemma {:induction false} ChunksAccepted(req: Request, s: Stores, s1: Stores)
    requires !req.DeleteSaga? && req.Valid()
    requires forall r :: r in s1.chunkRows <==> r in s.chunkRows && r.docUuid != req.Doc()
    ensures Accepts(CreateChunks(req.chunks), s1) <==>
      IdsFree(req, s) && (req.chunks != [] ==> req.Doc() in s1.documents)
  {
    if Accepts(CreateChunks(req.chunks), s1) && req.chunks != [] {
      assert req.chunks[0] in req.chunks;
    }
  }

  // ---------------------------------------------------------------- creates

  /** A create succeeds if and only if there is an embedding for every chunk, the document and the chunk
      ids are new, and the six calls succeed. */
  lemma {:induction false} CreateSucceedsIff(f: Oracle, w: World, req: Request)
    requires req.CreateSaga? && req.Valid() && WellFormed(w.stores)
    ensures var o := RunSaga(f, w, req).1;
      o.Returned? && o.result.success <==>
        Embeddable(req) && req.Doc() !in w.stores.documents && IdsFree(req, w.stores) && Up(f, w.calls, 6)
  {
    EmbeddableIff(req);
    var encoded := Encode(req.given, req.encoder, req.chunks);
    if encoded.Ready? {
      if req.Doc() !in w.stores.documents {
        ChunksAccepted(req, w.stores, WithDocument(w.stores, req.doc));
      }
      CreateStepsSucceedIff(f, w, req, encoded.embeddings);
    }
  }

  lemma {:induction false} CreateStepsSucceedIff(f: Oracle, w: World, req: Request, e: Option<Embeddings>)
    requires req.CreateSaga?
    ensures RunSteps(f, w, CreateSteps(req.doc, req.chunks, e)).1.success <==>
      && Accepts(CreateDocument(req.doc), w.stores)
      && Accepts(CreateChunks(req.chunks), WithDocument(w.stores, req.doc))
      && Embedded(e, req.chunks) && Up(f, w.calls, 6)
  {
    var n, steps, d := w.calls, CreateSteps(req.doc, req.chunks, e), req.doc.docUuid;
    UpParts(f, n, 2, 4);
    RowsWritten(f, w, req);
    SuccessStep(f, w, steps, 0, STARTED);
    var (w1, ok1) := ExecuteStep(f, w, steps[0]);
    if ok1 {
      AddStepsSucceedIff(f, w1, steps, 1, STARTED.(executed := STARTED.executed + [PostgresCreate]), d, req.chunks, e);
    }
  }

  /** The vector step and the graph step, at the end of a create or an update. */
  lemma {:induction false} AddStepsSucceedIff(
    f: Oracle, w: World, steps: seq<Step>, i: nat, r: Result, d: DocUuid, chunks: seq<Chunk>, e: Option<Embeddings>)
    requires |steps| == i + 2 && r.success
    requires steps[i] == MilvusCreateStep(d, chunks, e) && steps[i + 1] == Neo4jCreateStep(d, chunks)
    ensures ExecuteFrom(f, w, steps, i, r).1.success <==> Embedded(e, chunks) && Up(f, w.calls, 4)
  {
    UpParts(f, w.calls, 1, 3);
    VectorsWritten(f, w, d, chunks, e);
    SuccessStep(f, w, steps, i, r);
    var (w1, ok) := ExecuteStep(f, w, steps[i]);
    if ok {
      GraphWritten(f, w1, d, chunks);
      SuccessStep(f, w1, steps, i + 1, r.(executed := r.executed + [MilvusCreate]));
    }
  }

  /** A run that has come to step i succeeds if that step does and the rest of it. */
  lemma {:induction false} SuccessStep(f: Oracle, w: World, steps: seq<Step>, i: nat, r: Result)
    requires i < |steps|
    ensures var (w1, ok) := ExecuteStep(f, w, steps[i]);
      ExecuteFrom(f, w, steps, i, r).1.success <==>
        ok && (if i + 1 == |steps| then r.success
               else ExecuteFrom(f, w1, steps, i + 1, r.(executed := r.executed + [steps[i].name])).1.success)
  {
    var (w1, ok) := ExecuteStep(f, w, steps[i]);
    if !ok {
      CompensateCounts(f, w1, steps, i, r.(success := false, failed := Some(steps[i].name)));
    }
  }

  lemma {:induction false} UpParts(f: Oracle, n: nat, a: nat, b: nat)
    ensures Up(f, n, a + b) <==> Up(f, n, a) && Up(f, n + a, b)
    ensures Up(f, n, 1) <==> f(n)
    ensures Up(f, n, 2) <==> f(n) && f(n + 1)
    ensures Up(f, n, 3) <==> f(n) && f(n + 1) && f(n + 2)
    ensures Up(f, n + a, 3) <==> f(n + a) && f(n + a + 1) && f(n + a + 2)
  {
  }

  // ---------------------------------------------------------------- updates

  /** How many calls the row step of an update makes: two reads, the row, the deletion and the chunks. */
  function RowCalls(chunks: seq<Chunk>): nat {
    if chunks == [] then 4 else 5
  }

  lemma {:induction false} RunsAllIff(f: Oracle, w: World, ops: seq<Op>, i: nat, s: Stores)
    requires i <= |ops| && w.stores == After(ops, i, s) && Accepted(ops, i, s)
    ensures var (w', ok) := RunScript(f, w, ops, i);
      && (ok <==> Accepted(ops, |ops|, s) && Up(f, w.calls, |ops| - i))
      && (ok ==> w'.calls == w.calls + |ops| - i && w'.stores == After(ops, |ops|, s))
    decreases |ops| - i
  {
    if i < |ops| {
      var (w1, ok) := Call(f, w, ops[i]);
      UpParts(f, w.calls, 1, |ops| - i - 1);
      if ok {
        RunsAllIff(f, w1, ops, i + 1, s);
      } else {
        RefusedStays(ops, i, |ops|, s);
      }
    }
  }

  lemma {:induction false} RefusedStays(ops: seq<Op>, i: nat, k: nat, s: Stores)
    requires i < k <= |ops|
    ensures Accepted(ops, k, s) ==> Accepts(ops[i], After(ops, i, s))
    decreases k
  {
    if i < k - 1 {
      RefusedStays(ops, i, k - 1, s);
    }
  }

  lemma {:induction false} RowsRewritten(f: Oracle, w: World, req: Request)
    requires req.UpdateSaga? && req.Valid()
    ensures var (w1, ok) := ExecuteStep(f, w, PostgresUpdateStep(req.docUuid, req.doc, req.chunks));
      && (ok <==>
        && Up(f, w.calls, RowCalls(req.chunks))
        && (req.chunks != [] ==> IdsFree(req, w.stores) && req.Doc() in w.stores.documents))
      && (ok ==> w1.calls == w.calls + RowCalls(req.chunks))
  {
    var step := PostgresUpdateStep(req.docUuid, req.doc, req.chunks);
    var ops, s := step.execute, w.stores;
    RunsAllIff(f, w.(events := w.events + [Execute(step.name)]), ops, 0, s);
    RowsScript(s, req);
    if req.chunks != [] {
      ChunksAccepted(req, s, After(ops, 4, s));
    }
  }

  /** An update succeeds if and only if there is an embedding for every chunk, the document is there if
      there are chunks, the chunk ids are different and not those of other documents, and all of its
      eleven or twelve calls succeed. */
  lemma {:induction false} UpdateSucceedsIff(f: Oracle, w: World, req: Request)
    requires req.UpdateSaga? && req.Valid() && WellFormed(w.stores)
    ensures var o := RunSaga(f, w, req).1;
      o.Returned? && o.result.success <==>
        && Embeddable(req)
        && (req.chunks != [] ==> IdsFree(req, w.stores) && req.Doc() in w.stores.documents)
        && Up(f, w.calls, 7 + RowCalls(req.chunks))
  {
    var n, m, d := w.calls, RowCalls(req.chunks), req.docUuid;
    UpParts(f, n, 3, m + 4);
    UpParts(f, n + 3, m, 4);
    var clear := ClearSteps(d);
    ClearSucceedsIff(f, w, d);
    var (w1, r1) := RunSteps(f, w, clear);
    if r1.success {
      ClearedFacts(w.stores, d);
      RowsRewritten(f, w1, req);
      var (w2, ok) := ExecuteStep(f, w1, PostgresUpdateStep(d, req.doc, req.chunks));
      if ok {
        EmbeddableIff(req);
        var encoded := Encode(req.given, req.encoder, req.chunks);
        if encoded.Ready? {
          var steps := RebuildSteps(d, req.chunks, encoded.embeddings);
          AddStepsSucceedIff(f, w2, steps, 0, STARTED, d, req.chunks, encoded.embeddings);
        }
      }
    }
  }

  lemma {:induction false} ClearSucceedsIff(f: Oracle, w: World, d: DocUuid)
    requires WellFormed(w.stores)
    ensures var (w1, r) := RunSteps(f, w, ClearSteps(d));
      && (r.success <==> Up(f, w.calls, 3))
      && (r.success ==> w1.calls == w.calls + 3 && w1.stores == Cleared(w.stores, d))
  {
    var steps := ClearSteps(d);
    UpParts(f, w.calls, 2, 1);
    UpParts(f, w.calls + 2, 1, 0);
    GraphDeleted(f, w, d);
    SuccessStep(f, w, steps, 0, STARTED);
    var (w1, ok1) := ExecuteStep(f, w, steps[0]);
    if ok1 {
      var r1 := STARTED.(executed := STARTED.executed + [Neo4jDelete]);
      VectorsDeleted(f, w1, d);
      SuccessStep(f, w1, steps, 1, r1);
      var (w2, ok2) := ExecuteStep(f, w1, steps[1]);
      var r2 := r1.(executed := r1.executed + [MilvusDelete]);
      assert ok2 ==> RunSteps(f, w, steps) == ExecuteFrom(f, w1, steps, 1, r1);
      assert ok2 ==> ExecuteFrom(f, w1, steps, 1, r1) == ExecuteFrom(f, w2, steps, 2, r2) == (w2, r2);
    }
  }
}
