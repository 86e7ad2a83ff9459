/** What the stores hold after a saga that succeeded: every row, vector, node and edge, with its contents. */
module SagaContents {
  import opened Stores
  import opened Saga
  import opened SagaRollback
  import opened SagaSafety
  import opened SagaEffects
  import opened SagaOutcome
  import opened SagaHealing
  import opened SagaInterleaving

  /** The embeddings of a request: those given, or what the service answers for the texts. */
  ghost predicate Supplied(req: Request, e: Embeddings)
    requires !req.DeleteSaga?
  {
    if req.given.Some? then e == req.given.value else
      req.chunks != [] && req.encoder.Encodes? && e == req.encoder.encode(Texts(req.chunks))
  }

  /** The document, its chunks, their vectors and their graph are added to what was there. */
  ghost predicate Added(s: Stores, s': Stores, req: Request, e: Embeddings)
    requires req.CreateSaga?
  {
    && req.Doc() !in s.documents && s'.documents == s.documents[req.Doc() := req.doc]
    && (forall r :: r in s'.chunkRows <==> r in s.chunkRows || r in req.chunks)
    && VectorsAdded(s, s', req.Doc(), req.chunks, e)
    && GraphAdded(s, s', req.Doc(), req.chunks)
  }

  /** What was there of the document is replaced by the document, its chunks, their vectors and their graph;
      everything else is as before. */
  ghost predicate Replaced(s: Stores, s': Stores, req: Request, e: Embeddings)
    requires req.UpdateSaga?
  {
    var d, chunks := req.Doc(), req.chunks;
    && s'.documents == (if d in s.documents then s.documents[d := req.doc] else s.documents)
    && (forall r :: r in s'.chunkRows <==> (r in s.chunkRows && r.docUuid != d) || r in chunks)
    && |chunks| <= |e.dense| && |chunks| <= |e.sparse|
    && (forall v :: v in s'.vectors <==> (v in s.vectors && v.docUuid != d) || IsVectorOf(v, d, chunks, e))
    && (forall n :: n in s'.docNodes <==> n in s.docNodes || n == d)
    && (forall c :: c in s'.chunkNodes <==> (c in s.chunkNodes && Edge(d, c) !in s.contains) || NamesId(chunks, c))
    && forall g :: g in s'.contains <==>
      || (g in s.contains && g.doc != d && Edge(d, g.chunk) !in s.contains)
      || (g.doc == d && NamesId(chunks, g.chunk))
  }

  // ---------------------------------------------------------------- the scripts of a success

  /** A run that succeeds has run every script to its end. */
  lemma {:induction false} SuccessState(f: Oracle, w: World, steps: seq<Step>, i: nat, r: Result, s: Stores)
    requires i <= |steps| && w.stores == StateAt(steps, i, s)
    requires forall j :: 0 <= j < i ==> Completes(steps, j, s)
    ensures var (w', r') := ExecuteFrom(f, w, steps, i, r);
      r'.success ==> w'.stores == StateAt(steps, |steps|, s) && forall j :: 0 <= j < |steps| ==> Completes(steps, j, s)
    decreases |steps| - i
  {
    if i < |steps| {
      var k := ScriptShape(f, w.(events := w.events + [Execute(steps[i].name)]), steps[i].execute, 0, w.stores);
      var (w1, ok) := ExecuteStep(f, w, steps[i]);
      if ok {
        SuccessState(f, w1, steps, i + 1, r.(executed := r.executed + [steps[i].name]), s);
      } else {
        CompensateCounts(f, w1, steps, i, r.(success := false, failed := Some(steps[i].name)));
      }
    }
  }

  lemma {:induction false} EncodedIsSupplied(req: Request, e: Option<Embeddings>)
    requires !req.DeleteSaga? && Encode(req.given, req.encoder, req.chunks) == Ready(e) && e.Some?
    ensures Supplied(req, e.value)
  {
  }

  lemma {:induction false} GraphScriptAdds(s: Stores, d: DocUuid, chunks: seq<Chunk>)
    ensures var s' := After(Neo4jCreateStep(d, chunks).execute, 3, s);
      && GraphAdded(s, s', d, chunks)
      && s' == s.(docNodes := s'.docNodes, chunkNodes := s'.chunkNodes, contains := s'.contains)
  {
    var ops := Neo4jCreateStep(d, chunks).execute;
    NamesIds(chunks);
    assert After(ops, 1, s) == Apply(ops[0], s);
    assert After(ops, 2, s) == Apply(ops[1], After(ops, 1, s));
    assert After(ops, 3, s) == Apply(ops[2], After(ops, 2, s));
  }

  /** The calls of the row step of an update, but for the last. */
  lemma {:induction false} RowsScript(s: Stores, req: Request)
    requires req.UpdateSaga?
    ensures var ops := PostgresUpdateStep(req.Doc(), req.doc, req.chunks).execute;
      && |ops| == (if req.chunks == [] then 4 else 5)
      && (req.chunks != [] ==> ops[4] == CreateChunks(req.chunks))
      && Accepted(ops, 4, s)
      && After(ops, 4, s) == Apply(DeleteChunks(req.Doc()), Apply(UpdateDocument(req.Doc(), req.doc), s))
  {
    var ops := PostgresUpdateStep(req.Doc(), req.doc, req.chunks).execute;
    assert ops[0] == GetDocument(req.Doc()) && ops[1] == GetChunks(req.Doc());
    assert ops[2] == UpdateDocument(req.Doc(), req.doc) && ops[3] == DeleteChunks(req.Doc());
    assert Accepted(ops, 0, s) && After(ops, 0, s) == s;
    assert Accepted(ops, 1, s) && After(ops, 1, s) == s;
    assert Accepted(ops, 2, s) && After(ops, 2, s) == s;
    assert Accepted(ops, 3, s) && After(ops, 3, s) == Apply(ops[2], s);
  }

  lemma {:induction false} RowsScriptReplaces(s: Stores, req: Request)
    requires req.UpdateSaga? && req.Valid()
    ensures var ops := PostgresUpdateStep(req.Doc(), req.doc, req.chunks).execute;
      var s' := After(ops, |ops|, s);
      && s' == s.(documents := s'.documents, chunkRows := s'.chunkRows)
      && s'.documents == (if req.Doc() in s.documents then s.documents[req.Doc() := req.doc] else s.documents)
      && forall r :: r in s'.chunkRows <==> (r in s.chunkRows && r.docUuid != req.Doc()) || r in req.chunks
  {
    var ops := PostgresUpdateStep(req.Doc(), req.doc, req.chunks).execute;
    RowsScript(s, req);
    if req.chunks != [] {
      assert After(ops, 5, s) == Apply(CreateChunks(req.chunks), After(ops, 4, s));
    }
  }

  /** The vector step and the graph step, one after the other. */
  lemma {:induction false} RebuildAdds(s: Stores, d: DocUuid, chunks: seq<Chunk>, e: Option<Embeddings>)
    requires Ids(chunks) <= PgChunks(s, d)
    requires Accepted(MilvusCreateStep(d, chunks, e).execute, |MilvusCreateStep(d, chunks, e).execute|, s)
    ensures var milvus, neo4j := MilvusCreateStep(d, chunks, e).execute, Neo4jCreateStep(d, chunks).execute;
      var s' := After(neo4j, |neo4j|, After(milvus, |milvus|, s));
      && e.Some? && VectorsAdded(s, s', d, chunks, e.value) && GraphAdded(s, s', d, chunks)
      && s'.documents == s.documents && s'.chunkRows == s.chunkRows
  {
    MilvusCreateScript(s, d, chunks, e, false);
    GraphScriptAdds(After(MilvusCreateStep(d, chunks, e).execute, 1, s), d, chunks);
  }

  /** The stores after a step and its compensation, if all calls of both succeed. */
  function ThereAndBack(step: Step, s: Stores): Stores {
    var s1 := After(step.execute, |step.execute|, s);
    After(step.compensate, |step.compensate|, s1)
  }

  /** Nothing of the document or its chunks is there yet. */
  ghost predicate Fresh(s: Stores, d: DocUuid, chunks: seq<Chunk>) {
    && d !in s.documents && d !in s.docNodes && (forall v :: v in s.vectors ==> v.docUuid != d)
    && forall c :: NamesId(chunks, c) ==> c !in s.chunkNodes
  }

  /** The compensation of each step of a create undoes the step where nothing of the document was there. */
  lemma {:induction false} CompensationsUndo(s: Stores, req: Request, e: Embeddings)
    requires req.CreateSaga? && req.Valid() && WellFormed(s) && Fresh(s, req.Doc(), req.chunks)
    requires |req.chunks| <= |e.dense| && |req.chunks| <= |e.sparse|
    ensures ThereAndBack(PostgresCreateStep(req.Doc(), req.doc, req.chunks), s) == s
    ensures ThereAndBack(MilvusCreateStep(req.Doc(), req.chunks, Some(e)), s) == s
    ensures ThereAndBack(Neo4jCreateStep(req.Doc(), req.chunks), s) == s
  {
    RowsUndone(s, req);
    VectorsUndone(s, req.Doc(), req.chunks, e);
    GraphUndone(s, req.Doc(), req.chunks);
  }

  lemma {:induction false} RowsUndone(s: Stores, req: Request)
    requires req.CreateSaga? && req.Valid() && WellFormed(s) && Fresh(s, req.Doc(), req.chunks)
    ensures ThereAndBack(PostgresCreateStep(req.Doc(), req.doc, req.chunks), s) == s
  {
    var step := PostgresCreateStep(req.Doc(), req.doc, req.chunks);
    var s1 := WithChunks(s, req.doc, req.chunks);
    assert After(step.execute, 1, s) == WithDocument(s, req.doc);
    assert After(step.execute, 2, s) == s1;
    var s2 := After(step.compensate, 1, s1);
    assert s2 == Apply(DeleteDocument(req.Doc()), s1) by {
      assert After(step.compensate, 0, s1) == s1;
    }
    DeletionsRemove(s1, req.Doc());
    assert s2.documents == s.documents;
    assert s2.chunkRows == s.chunkRows;
  }

  lemma {:induction false} VectorsUndone(s: Stores, d: DocUuid, chunks: seq<Chunk>, e: Embeddings)
    requires Fresh(s, d, chunks) && |chunks| <= |e.dense| && |chunks| <= |e.sparse|
    ensures ThereAndBack(MilvusCreateStep(d, chunks, Some(e)), s) == s
  {
    var step := MilvusCreateStep(d, chunks, Some(e));
    var s1 := After(step.execute, 1, s);
    assert s1 == Apply(InsertVectors(VectorRows(d, chunks, e)), s) by {
      assert After(step.execute, 0, s) == s;
    }
    InsertAddsVectors(s, d, chunks, e);
    DeletionsRemove(s1, d);
    var s2 := After(step.compensate, 1, s1);
    assert s2 == Apply(DeleteVectors(d), s1) by {
      assert After(step.compensate, 0, s1) == s1;
    }
    assert s2.vectors == s.vectors;
  }

  lemma {:induction false} GraphUndone(s: Stores, d: DocUuid, chunks: seq<Chunk>)
    requires WellFormed(s) && Fresh(s, d, chunks)
    ensures ThereAndBack(Neo4jCreateStep(d, chunks), s) == s
  {
    var step := Neo4jCreateStep(d, chunks);
    var s1 := After(step.execute, 3, s);
    GraphScriptAdds(s, d, chunks);
    DeletionsRemove(s1, d);
    var s2 := After(step.compensate, 1, s1);
    assert s2 == Apply(DeleteGraph(d), s1) by {
      assert After(step.compensate, 0, s1) == s1;
    }
    assert s2.docNodes == s.docNodes;
    assert s2.chunkNodes == s.chunkNodes;
    assert s2.contains == s.contains;
  }

  // ---------------------------------------------------------------- a create

  /** A create that succeeds adds the document with its chunks as given, one vector per chunk with the
      embeddings at its place, and the graph; it changes nothing else. */
  lemma {:induction false} CreateContents(f: Oracle, w: World, req: Request) returns (e: Embeddings)
    requires req.CreateSaga? && req.Valid() && Sound(w)
    requires var o := RunSaga(f, w, req).1; o.Returned? && o.result.success
    ensures Supplied(req, e) && Added(w.stores, RunSaga(f, w, req).0.stores, req, e)
  {
    var s, d := w.stores, req.Doc();
    var given := Encode(req.given, req.encoder, req.chunks).embeddings;
    var steps := CreateSteps(req.doc, req.chunks, given);
    SuccessState(f, w, steps, 0, STARTED, s);
    assert Completes(steps, 0, s) && Completes(steps, 1, s);
    PostgresCreateScript(s, req, false);
    assert Accepted(steps[0].execute, 1, s);
    CreatedFacts(s, req, false);
    var s1 := WithChunks(s, req.doc, req.chunks);
    assert StateAt(steps, 1, s) == s1;
    assert StateAt(steps, 2, s) == After(steps[1].execute, |steps[1].execute|, s1);
    RebuildAdds(s1, d, req.chunks, given);
    EncodedIsSupplied(req, given);
    e := given.value;
  }

  /** When a create raises, it is the embedding service that does, on texts that have no embeddings. */
  lemma {:induction false} CreateRaisesIff(f: Oracle, w: World, req: Request)
    requires req.CreateSaga?
    ensures RunSaga(f, w, req).1.Raised? <==> req.given.None? && req.chunks != [] && req.encoder.EncoderRaises?
  {
  }

  // ---------------------------------------------------------------- an update

  /** An update that succeeds replaces all that was there of the document. */
  lemma {:induction false} UpdateContents(f: Oracle, w: World, req: Request) returns (e: Embeddings)
    requires req.UpdateSaga? && req.Valid() && Sound(w)
    requires var o := RunSaga(f, w, req).1; o.Returned? && o.result.success
    ensures Supplied(req, e) && Replaced(w.stores, RunSaga(f, w, req).0.stores, req, e)
  {
    var s, d := w.stores, req.Doc();
    var clear := ClearSteps(d);
    var (w1, r1) := RunSteps(f, w, clear);
    SuccessState(f, w, clear, 0, STARTED, s);
    ClearScripts(s, d);
    var step := PostgresUpdateStep(d, req.doc, req.chunks);
    var k := ScriptShape(f, w1.(events := w1.events + [Execute(step.name)]), step.execute, 0, w1.stores);
    var (w2, ok) := ExecuteStep(f, w1, step);
    var s2 := w2.stores;
    RowsScriptReplaces(w1.stores, req);
    assert s2 == After(step.execute, |step.execute|, w1.stores);
    var given := Encode(req.given, req.encoder, req.chunks).embeddings;
    var steps := RebuildSteps(d, req.chunks, given);
    SuccessState(f, w2, steps, 0, STARTED, s2);
    assert Completes(steps, 0, s2);
    ListedAreIds(s2, req);
    RebuildAdds(s2, d, req.chunks, given);
    EncodedIsSupplied(req, given);
    e := given.value;
    var s' := RunSaga(f, w, req).0.stores;
    assert StateAt(steps, 1, s2) == After(steps[0].execute, |steps[0].execute|, s2);
    assert s' == StateAt(steps, 2, s2) == After(steps[1].execute, |steps[1].execute|, StateAt(steps, 1, s2));
    ClearedRemoves(s, d);
    ReplacedIn(s, w1.stores, s2, s', req, e);
  }

  lemma {:induction false} ClearScripts(s: Stores, d: DocUuid)
    requires WellFormed(s)
    ensures StateAt(ClearSteps(d), 2, s) == Cleared(s, d)
  {
    var steps := ClearSteps(d);
    Neo4jDeleteScript(s, d, false);
    DeleteVectorsScript(WithoutGraph(s, d), d, false);
    assert StateAt(steps, 1, s) == After(steps[0].execute, 2, s);
    assert StateAt(steps, 2, s) == After(steps[1].execute, 1, StateAt(steps, 1, s));
  }

  lemma {:induction false} ListedAreIds(s: Stores, req: Request)
    requires !req.DeleteSaga? && req.Valid() && forall r :: r in req.chunks ==> r in s.chunkRows
    ensures Ids(req.chunks) <= PgChunks(s, req.Doc())
  {
  }

  /** Removal, new rows, new vectors and new graph make up the replacement. */
  lemma {:induction false} ReplacedIn(s: Stores, s1: Stores, s2: Stores, s': Stores, req: Request, e: Embeddings)
    requires req.UpdateSaga? && WellFormed(s)
    requires Removed(s, s1, req.Doc(), true, true, false)
    requires s2 == s1.(documents := s2.documents, chunkRows := s2.chunkRows)
    requires s2.documents == (if req.Doc() in s1.documents then s1.documents[req.Doc() := req.doc] else s1.documents)
    requires forall r :: r in s2.chunkRows <==> (r in s1.chunkRows && r.docUuid != req.Doc()) || r in req.chunks
    requires VectorsAdded(s2, s', req.Doc(), req.chunks, e) && GraphAdded(s2, s', req.Doc(), req.chunks)
    requires s'.documents == s2.documents && s'.chunkRows == s2.chunkRows
    ensures Replaced(s, s', req, e)
  {
    var d := req.Doc();
    if d !in s.docNodes {
      assert forall g :: g in s.contains ==> g.doc != d;
    }
  }

  // ---------------------------------------------------------------- histories

  /** A chunk node stays away unless a saga that names the chunk creates it. */
  lemma {:induction false} RunNodes(f: Oracle, i: nat, p: Prog, s: Stores, d: DocUuid, ids: set<ChunkUuid>)
    requires Confined(p, d, ids)
    ensures Run(f, i, p, s).0.chunkNodes <= s.chunkNodes + ids
    decreases p
  {
    if p.Do? {
      RunNodes(f, i + 1, Next(p, f(i), s), Effect(p.op, f(i), s), d, ids);
    }
  }

  predicate NamedIn(h: seq<Entry>, c: ChunkUuid) {
    exists i :: 0 <= i < |h| && !h[i].req.DeleteSaga? && NamesId(h[i].req.chunks, c)
  }

  lemma {:induction false} HistoryNodes(w: World, h: seq<Entry>, c: ChunkUuid)
    requires AllValid(h) && c !in w.stores.chunkNodes && !NamedIn(h, c)
    ensures c !in RunHistory(w, h).stores.chunkNodes
    decreases |h|
  {
    if h != [] {
      var f, req := h[0].oracle, h[0].req;
      var ids := if req.DeleteSaga? then {} else Ids(req.chunks);
      SagaConfined(req, ids);
      SagaProgRuns(f, w, req);
      RunNodes(f, w.calls, SagaProg(req), w.stores, req.Doc(), ids);
      if !req.DeleteSaga? {
        NamesIds(req.chunks);
      }
      HistoryNodes(RunSaga(f, w, req).0, h[1..], c);
    }
  }

  /** PostgreSQL has exactly these chunks of d, and Neo4j its node with exactly these chunks on it. */
  ghost predicate RowsAndGraphAre(s: Stores, d: DocUuid, chunks: seq<Chunk>) {
    && (forall r :: r in s.chunkRows && r.docUuid == d <==> r in chunks)
    && d in s.docNodes && (forall c :: Edge(d, c) in s.contains <==> NamesId(chunks, c))
    && forall c :: NamesId(chunks, c) ==> c in s.chunkNodes
  }

  /** Nothing of d is in any store. */
  ghost predicate NothingOf(s: Stores, d: DocUuid) {
    && d !in s.documents && (forall r :: r in s.chunkRows ==> r.docUuid != d)
    && (forall v :: v in s.vectors ==> v.docUuid != d)
    && d !in s.docNodes && forall g :: g in s.contains ==> g.doc != d
  }

  /** s holds of the document what the request, begun in s1, was given.  Chunk nodes that it took away are
      there only if the later sagas name them. */
  ghost predicate Decided(s1: Stores, s: Stores, req: Request, e: Embeddings, later: seq<Entry>) {
    var d := req.Doc();
    match req
    case DeleteSaga(_) =>
      && NothingOf(s, d)
      && forall c :: Edge(d, c) in s1.contains && c in s.chunkNodes ==> NamedIn(later, c)
    case UpdateSaga(_, doc, chunks, _, _) =>
      && RowsAndGraphAre(s, d, chunks)
      && (d in s.documents <==> d in s1.documents) && (d in s.documents ==> s.documents[d] == doc)
      && Supplied(req, e) && |chunks| <= |e.dense| && |chunks| <= |e.sparse|
      && (forall v :: v in s.vectors && v.docUuid == d <==> IsVectorOf(v, d, chunks, e))
      && forall c :: Edge(d, c) in s1.contains && !NamesId(chunks, c) && c in s.chunkNodes ==> NamedIn(later, c)
    case CreateSaga(doc, chunks, _, _) =>
      && RowsAndGraphAre(s, d, chunks)
      && d in s.documents && s.documents[d] == doc
      && Supplied(req, e) && |chunks| <= |e.dense| && |chunks| <= |e.sparse|
      && forall v :: v in s.vectors && v.docUuid == d <==>
        (v in s1.vectors && v.docUuid == d) || IsVectorOf(v, d, chunks, e)
  }

  lemma {:induction false} DecidedNow(f: Oracle, w: World, req: Request) returns (e: Embeddings)
    requires req.Valid() && Sound(w)
    requires var o := RunSaga(f, w, req).1; o.Returned? && o.result.success
    ensures Decided(w.stores, RunSaga(f, w, req).0.stores, req, e, [])
  {
    var s' := RunSaga(f, w, req).0.stores;
    match req {
      case DeleteSaga(d) =>
        DeleteRuns(f, w, d, Origin(w.stores, |w.history|), false);
        RemovedIsDecided(w.stores, s', req);
        e := Embeddings([], []);
      case UpdateSaga(_, _, _, _, _) =>
        e := UpdateContents(f, w, req);
        ReplacedIsDecided(w.stores, s', req, e);
      case CreateSaga(_, _, _, _) =>
        e := CreateContents(f, w, req);
        AddedIsDecided(w.stores, s', req, e);
    }
  }

  lemma {:induction false} RemovedIsDecided(s: Stores, s': Stores, req: Request)
    requires req.DeleteSaga? && WellFormed(s) && Removed(s, s', req.Doc(), true, true, true)
    ensures Decided(s, s', req, Embeddings([], []), [])
  {
  }

  lemma {:induction false} ReplacedIsDecided(s: Stores, s': Stores, req: Request, e: Embeddings)
    requires req.UpdateSaga? && req.Valid() && WellFormed(s) && Supplied(req, e) && Replaced(s, s', req, e)
    ensures Decided(s, s', req, e, [])
  {
  }

  lemma {:induction false} AddedIsDecided(s: Stores, s': Stores, req: Request, e: Embeddings)
    requires req.CreateSaga? && req.Valid() && WellFormed(s) && GraphBehind(s)
    requires Supplied(req, e) && Added(s, s', req, e)
    ensures Decided(s, s', req, e, [])
  {
    CreatedFacts(s, req, false);
    assert forall c :: Edge(req.Doc(), c) in s.contains ==> c in PgChunks(s, req.Doc());
  }

  lemma {:induction false} DecidedLater(
    s1: Stores, s2: Stores, s: Stores, req: Request, e: Embeddings, later: seq<Entry>)
    requires Decided(s1, s2, req, e, []) && SliceOf(s, req.Doc()) == SliceOf(s2, req.Doc()) && WellFormed(s)
    requires forall c :: c !in s2.chunkNodes && c in s.chunkNodes ==> NamedIn(later, c)
    ensures Decided(s1, s, req, e, later)
  {
    SliceMembers(s, s2, req.Doc());
    assert forall c :: !NamedIn([], c);
  }

  /** Whatever failed before and whatever happens to other documents afterwards: the stores hold of the
      document what its last successful saga was given. */
  lemma {:induction false} LastSagaDecides(s0: Stores, before: seq<Entry>, last: Entry, after: seq<Entry>)
    returns (e: Embeddings)
    requires AllValid(before) && last.req.Valid() && AllValid(after)
    requires WellFormed(s0) && GraphBehind(s0)
    requires forall i :: 0 <= i < |after| ==> after[i].req.Doc() != last.req.Doc()
    requires var o := RunSaga(last.oracle, RunHistory(Start(s0), before), last.req).1; o.Returned? && o.result.success
    ensures
      var w1 := RunHistory(Start(s0), before);
      var w2 := RunSaga(last.oracle, w1, last.req).0;
      Decided(w1.stores, RunHistory(w2, after).stores, last.req, e, after)
  {
    HistoryKeeps(Start(s0), before);
    var w1 := RunHistory(Start(s0), before);
    var w2 := RunSaga(last.oracle, w1, last.req).0;
    SagaStep(last.oracle, w1, last.req);
    HistoryKeeps(w2, after);
    HistoryElsewhere(w2, after, last.req.Doc());
    var s := RunHistory(w2, after).stores;
    e := DecidedNow(last.oracle, w1, last.req);
    forall c | c !in w2.stores.chunkNodes && c in s.chunkNodes ensures NamedIn(after, c) {
      if !NamedIn(after, c) {
        HistoryNodes(w2, after, c);
      }
    }
    DecidedLater(w1.stores, w2.stores, s, last.req, e, after);
  }

  /** Equal slices have equal members. */
  lemma {:induction false} SliceMembers(s: Stores, s': Stores, d: DocUuid)
    requires SliceOf(s, d) == SliceOf(s', d)
    ensures d in s.documents <==> d in s'.documents
    ensures d in s.documents ==> s.documents[d] == s'.documents[d]
    ensures forall r :: r in s.chunkRows && r.docUuid == d <==> r in s'.chunkRows && r.docUuid == d
    ensures forall v :: v in s.vectors && v.docUuid == d <==> v in s'.vectors && v.docUuid == d
    ensures d in s.docNodes <==> d in s'.docNodes
    ensures forall c :: Edge(d, c) in s.contains <==> Edge(d, c) in s'.contains
  {
    forall r ensures r in s.chunkRows && r.docUuid == d <==> r in s'.chunkRows && r.docUuid == d {
      assert r in SliceOf(s, d).chunks <==> r in SliceOf(s', d).chunks;
    }
    forall v ensures v in s.vectors && v.docUuid == d <==> v in s'.vectors && v.docUuid == d {
      assert v in SliceOf(s, d).vectors <==> v in SliceOf(s', d).vectors;
    }
    forall c ensures Edge(d, c) in s.contains <==> Edge(d, c) in s'.contains {
      assert c in GraphChunks(s, d) <==> Edge(d, c) in s.contains;
      assert c in GraphChunks(s', d) <==> Edge(d, c) in s'.contains;
    }
  }
}
