/** Which inputs make a create leave vectors without chunk rows: the condition on the request, the
    stores and the answers of the repositories, before the run. */
module SagaOrphans {
  import opened Stores
  import opened Saga
  import opened SagaOutcome

  /** How many of the three graph calls, the first being call n, succeed before one fails. */
  function GraphCalls(f: Oracle, n: nat): nat {
    if !f(n) then 0 else if !f(n + 1) then 1 else if !f(n + 2) then 2 else 3
  }

  /** There is an embedding for every chunk. */
  predicate Embedded(e: Option<Embeddings>, chunks: seq<Chunk>) {
    e.Some? && |chunks| <= |e.value.dense| && |chunks| <= |e.value.sparse|
  }

  /** A create with chunks and embeddings for them, whose row, chunk rows and vectors are written, one of
      whose graph calls fails, after which the vectors are not deleted but the document is.  Call n is
      the first of the run. */
  predicate Orphaning(f: Oracle, n: nat, s: Stores, req: Request) {
    && req.CreateSaga? && req.chunks != []
    && var encoded := Encode(req.given, req.encoder, req.chunks);
    && encoded.Ready? && Embedded(encoded.embeddings, req.chunks)
    && Accepts(CreateDocument(req.doc), s) && Accepts(CreateChunks(req.chunks), WithDocument(s, req.doc))
    && f(n) && f(n + 1) && f(n + 2)
    && var done := GraphCalls(f, n + 3);
    && done < 3 && !f(n + done + 4) && f(n + done + 5)
  }

  // ---------------------------------------------------------------- the calls of a create, one by one

  lemma {:induction false} OneCall(f: Oracle, w: World, a: Op)
    ensures RunScript(f, w, [a], 0) == Call(f, w, a)
  {
    var (w1, ok) := Call(f, w, a);
    assert ok ==> RunScript(f, w, [a], 0) == RunScript(f, w1, [a], 1);
  }

  lemma {:induction false} TwoCalls(f: Oracle, w: World, a: Op, b: Op)
    ensures var (w1, ok) := Call(f, w, a);
      RunScript(f, w, [a, b], 0) == if ok then Call(f, w1, b) else (w1, false)
  {
    var (w1, ok) := Call(f, w, a);
    if ok {
      var (w2, ok2) := Call(f, w1, b);
      assert RunScript(f, w, [a, b], 0) == RunScript(f, w1, [a, b], 1);
      assert ok2 ==> RunScript(f, w1, [a, b], 1) == RunScript(f, w2, [a, b], 2);
    }
  }

  lemma {:induction false} ThreeCalls(f: Oracle, w: World, a: Op, b: Op, c: Op)
    ensures var (w1, ok1) := Call(f, w, a);
      var (w2, ok2) := Call(f, w1, b);
      RunScript(f, w, [a, b, c], 0) == if !ok1 then (w1, false) else if !ok2 then (w2, false) else Call(f, w2, c)
  {
    var (w1, ok1) := Call(f, w, a);
    if ok1 {
      var (w2, ok2) := Call(f, w1, b);
      assert RunScript(f, w, [a, b, c], 0) == RunScript(f, w1, [a, b, c], 1);
      if ok2 {
        var (w3, ok3) := Call(f, w2, c);
        assert RunScript(f, w1, [a, b, c], 1) == RunScript(f, w2, [a, b, c], 2);
        assert ok3 ==> RunScript(f, w2, [a, b, c], 2) == RunScript(f, w3, [a, b, c], 3);
      }
    }
  }

  lemma {:induction false} RowsWritten(f: Oracle, w: World, req: Request)
    requires req.CreateSaga?
    ensures var (w1, ok) := ExecuteStep(f, w, PostgresCreateStep(req.doc.docUuid, req.doc, req.chunks));
      && (ok <==>
        && f(w.calls) && Accepts(CreateDocument(req.doc), w.stores)
        && f(w.calls + 1) && Accepts(CreateChunks(req.chunks), WithDocument(w.stores, req.doc)))
      && (ok ==> w1.calls == w.calls + 2)
  {
    var step := PostgresCreateStep(req.doc.docUuid, req.doc, req.chunks);
    var w0 := w.(events := w.events + [Execute(step.name)]);
    TwoCalls(f, w0, CreateDocument(req.doc), CreateChunks(req.chunks));
  }

  lemma {:induction false} VectorsWritten(f: Oracle, w: World, d: DocUuid, chunks: seq<Chunk>, e: Option<Embeddings>)
    ensures var (w1, ok) := ExecuteStep(f, w, MilvusCreateStep(d, chunks, e));
      && (ok <==> Embedded(e, chunks) && f(w.calls))
      && (ok ==> w1.calls == w.calls + 1)
  {
    var step := MilvusCreateStep(d, chunks, e);
    OneCall(f, w.(events := w.events + [Execute(step.name)]), step.execute[0]);
    assert step.execute == [step.execute[0]];
  }

  lemma {:induction false} GraphWritten(f: Oracle, w: World, d: DocUuid, chunks: seq<Chunk>)
    ensures var (w1, ok) := ExecuteStep(f, w, Neo4jCreateStep(d, chunks));
      var done := GraphCalls(f, w.calls);
      && (ok <==> done == 3)
      && (!ok ==> w1.calls == w.calls + done + 1)
  {
    var ids := ChunkIds(chunks);
    var w0 := w.(events := w.events + [Execute(Neo4jCreate)]);
    ThreeCalls(f, w0, CreateDocNode(d), CreateChunkNodes(ids), CreateEdges(d, ids));
  }

  lemma {:induction false} Compensated(f: Oracle, w: World, step: Step, op: Op)
    requires step.compensate == [op] && (op.DeleteVectors? || op.DeleteDocument?)
    ensures var (w1, ok) := CompensateStep(f, w, step); (ok <==> f(w.calls)) && w1.calls == w.calls + 1
  {
    OneCall(f, w.(events := w.events + [Compensate(step.name)]), op);
  }

  /** The two compensations of a create whose graph step failed. */
  lemma {:induction false} CreateUndone(
    f: Oracle, w: World, steps: seq<Step>, req: Request, e: Option<Embeddings>, r: Result)
    requires req.CreateSaga? && steps == CreateSteps(req.doc, req.chunks, e)
    requires r == Result(false, [PostgresCreate, MilvusCreate], [], Some(Neo4jCreate))
    ensures var r' := CompensateDown(f, w, steps, 2, r).1;
      && r'.executed == r.executed
      && (r'.compensated == [PostgresCreate] <==> !f(w.calls) && f(w.calls + 1))
  {
    var d := req.doc.docUuid;
    Compensated(f, w, steps[1], DeleteVectors(d));
    var (w1, ok1) := CompensateStep(f, w, steps[1]);
    var r1 := if ok1 then r.(compensated := [MilvusCreate]) else r;
    assert r.compensated + [MilvusCreate] == [MilvusCreate];
    assert CompensateDown(f, w, steps, 2, r) == CompensateDown(f, w1, steps, 1, r1);
    Compensated(f, w1, steps[0], DeleteDocument(d));
    var (w2, ok2) := CompensateStep(f, w1, steps[0]);
    var r2 := if ok2 then r1.(compensated := r1.compensated + [PostgresCreate]) else r1;
    assert CompensateDown(f, w1, steps, 1, r1) == CompensateDown(f, w2, steps, 0, r2) == (w2, r2);
    assert [] + [PostgresCreate] == [PostgresCreate];
    assert ok1 && ok2 ==> r2.compensated[0] == MilvusCreate;
  }

  lemma {:induction false} CompensationsKeepExecuted(f: Oracle, w: World, steps: seq<Step>, n: nat, r: Result)
    requires n <= |steps|
    ensures CompensateDown(f, w, steps, n, r).1.executed == r.executed
    decreases n
  {
    if n > 0 {
      var (w1, ok) := CompensateStep(f, w, steps[n - 1]);
      CompensationsKeepExecuted(f, w1, steps, n - 1,
        if ok then r.(compensated := r.compensated + [steps[n - 1].name]) else r);
    }
  }

  /** The graph step of a create, which follows the vectors. */
  lemma {:induction false} GraphEnds(f: Oracle, w2: World, steps: seq<Step>, req: Request, e: Option<Embeddings>)
    requires req.CreateSaga? && steps == CreateSteps(req.doc, req.chunks, e)
    ensures var r := ExecuteFrom(f, w2, steps, 2, STARTED.(executed := [PostgresCreate, MilvusCreate])).1;
      var done := GraphCalls(f, w2.calls);
      r.executed == [PostgresCreate, MilvusCreate] && r.compensated == [PostgresCreate] <==>
        done < 3 && !f(w2.calls + done + 1) && f(w2.calls + done + 2)
  {
    var r2 := STARTED.(executed := [PostgresCreate, MilvusCreate]);
    GraphWritten(f, w2, req.doc.docUuid, req.chunks);
    var (w3, ok3) := ExecuteStep(f, w2, steps[2]);
    if ok3 {
      var r3 := r2.(executed := r2.executed + [Neo4jCreate]);
      assert ExecuteFrom(f, w2, steps, 2, r2) == ExecuteFrom(f, w3, steps, 3, r3) == (w3, r3);
    } else {
      var r3 := r2.(success := false, failed := Some(Neo4jCreate));
      assert ExecuteFrom(f, w2, steps, 2, r2) == CompensateDown(f, w3, steps, 2, r3);
      CreateUndone(f, w3, steps, req, e, r3);
    }
  }

  lemma {:induction false} CreateOrphansIff(f: Oracle, w: World, req: Request, e: Option<Embeddings>)
    requires req.CreateSaga?
    ensures var r := RunSteps(f, w, CreateSteps(req.doc, req.chunks, e)).1;
      r.executed == [PostgresCreate, MilvusCreate] && r.compensated == [PostgresCreate] <==>
        && Accepts(CreateDocument(req.doc), w.stores)
        && Accepts(CreateChunks(req.chunks), WithDocument(w.stores, req.doc))
        && Embedded(e, req.chunks)
        && f(w.calls) && f(w.calls + 1) && f(w.calls + 2)
        && var done := GraphCalls(f, w.calls + 3);
        done < 3 && !f(w.calls + done + 4) && f(w.calls + done + 5)
  {
    var steps, d := CreateSteps(req.doc, req.chunks, e), req.doc.docUuid;
    RowsWritten(f, w, req);
    var (w1, ok1) := ExecuteStep(f, w, steps[0]);
    if !ok1 {
      var r := STARTED.(success := false, failed := Some(PostgresCreate));
      assert RunSteps(f, w, steps) == CompensateDown(f, w1, steps, 0, r) == (w1, r);
    } else {
      var r1 := STARTED.(executed := [PostgresCreate]);
      assert STARTED.executed + [PostgresCreate] == [PostgresCreate];
      assert RunSteps(f, w, steps) == ExecuteFrom(f, w1, steps, 1, r1);
      VectorsWritten(f, w1, d, req.chunks, e);
      var (w2, ok2) := ExecuteStep(f, w1, steps[1]);
      if !ok2 {
        var r := r1.(success := false, failed := Some(MilvusCreate));
        assert ExecuteFrom(f, w1, steps, 1, r1) == CompensateDown(f, w2, steps, 1, r);
        CompensationsKeepExecuted(f, w2, steps, 1, r);
      } else {
        assert r1.executed + [MilvusCreate] == [PostgresCreate, MilvusCreate];
        assert ExecuteFrom(f, w1, steps, 1, r1)
            == ExecuteFrom(f, w2, steps, 2, STARTED.(executed := [PostgresCreate, MilvusCreate]));
        GraphEnds(f, w2, steps, req, e);
      }
    }
  }

  /** A saga reports the orphaning of vectors exactly on these inputs. */
  lemma {:induction false} OrphansIff(f: Oracle, w: World, req: Request)
    ensures Orphans(req, RunSaga(f, w, req).1) <==> Orphaning(f, w.calls, w.stores, req)
  {
    if req.CreateSaga? {
      var encoded := Encode(req.given, req.encoder, req.chunks);
      if encoded.Ready? {
        CreateOrphansIff(f, w, req, encoded.embeddings);
      }
    }
  }
}
