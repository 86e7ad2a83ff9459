/** Where the three sagas end, and that the invariants of SagaSafety hold in every state on the way. */
module SagaOutcome {
  import opened Stores
  import opened Saga
  import opened SagaRollback
  import opened SagaSafety
  import opened SagaEffects

  /** The document is in all three stores over exactly these chunk ids. */
  ghost predicate Consistent(s: Stores, d: DocUuid, ids: set<ChunkUuid>) {
    PgChunks(s, d) == VectorChunks(s, d) == GraphChunks(s, d) == ids
  }

  /** The one run that leaves vectors without chunks: the graph step of a create failed, deleting the
      vectors failed, and deleting the document succeeded. */
  predicate Orphans(req: Request, o: Outcome) {
    && req.CreateSaga? && req.chunks != []
    && o.Returned?
    && o.result.executed == [PostgresCreate, MilvusCreate]
    && o.result.compensated == [PostgresCreate]
  }

  function WithDocument(s: Stores, doc: Document): Stores {
    s.(documents := s.documents[doc.docUuid := doc])
  }

  function WithChunks(s: Stores, doc: Document, chunks: seq<Chunk>): Stores {
    Apply(CreateChunks(chunks), WithDocument(s, doc))
  }

  function WithoutVectors(s: Stores, d: DocUuid): Stores {
    Apply(DeleteVectors(d), s)
  }

  function WithNode(s: Stores, d: DocUuid): Stores {
    s.(docNodes := s.docNodes + {d})
  }

  function WithNodes(s: Stores, d: DocUuid, chunks: seq<Chunk>): Stores {
    s.(docNodes := s.docNodes + {d}, chunkNodes := s.chunkNodes + Ids(chunks))
  }

  // ---------------------------------------------------------------- the scripts of the steps

  lemma PostgresCreateScript(s: Stores, req: Request, vec: bool)
    requires req.CreateSaga? && req.Valid() && WellFormed(s) && GraphBehind(s) && (vec ==> VectorsBehind(s))
    ensures var ops := PostgresCreateStep(req.Doc(), req.doc, req.chunks).execute;
      && Guarded(ops, s, req.Doc(), vec)
      && After(ops, 1, s) == WithDocument(s, req.doc)
      && After(ops, 2, s) == WithChunks(s, req.doc, req.chunks)
      && (Accepted(ops, 1, s) ==> req.Doc() !in s.documents)
  {
  }

  lemma CreatedFacts(s: Stores, req: Request, vec: bool)
    requires req.CreateSaga? && req.Valid() && WellFormed(s) && GraphBehind(s) && (vec ==> VectorsBehind(s))
    requires req.Doc() !in s.documents
    ensures var s2 := WithChunks(s, req.doc, req.chunks); var d := req.Doc();
      && PgChunks(s2, d) == Ids(req.chunks)
      && GraphChunks(s2, d) == {}
      && (vec ==> VectorChunks(s2, d) == {})
    ensures PgChunks(s, req.Doc()) == {}
  {
  }

  lemma MilvusCreateScript(s: Stores, d: DocUuid, chunks: seq<Chunk>, e: Option<Embeddings>, vec: bool)
    requires Ids(chunks) <= PgChunks(s, d)
    ensures var ops := MilvusCreateStep(d, chunks, e).execute;
      && |ops| == 1 && Guarded(ops, s, d, vec)
      && (Accepted(ops, 1, s) ==>
            && e.Some? && VectorsAdded(s, After(ops, 1, s), d, chunks, e.value)
            && After(ops, 1, s) == s.(vectors := After(ops, 1, s).vectors)
            && VectorChunks(After(ops, 1, s), d) == VectorChunks(s, d) + Ids(chunks)
            && WithoutVectors(After(ops, 1, s), d) == WithoutVectors(s, d))
  {
    var ops := MilvusCreateStep(d, chunks, e).execute;
    assert After(ops, 0, s) == s && After(ops, 1, s) == Apply(ops[0], s);
    if Accepted(ops, 1, s) {
      assert Accepts(ops[0], s);
      var rows := VectorRows(d, chunks, e.value);
      var s' := After(ops, 1, s);
      InsertAddsVectors(s, d, chunks, e.value);
      assert s'.vectors == s.vectors + set v | v in rows;
      forall c ensures c in VectorChunks(s', d) <==> c in VectorChunks(s, d) + Ids(chunks) {
        if c in VectorChunks(s, d) {
          var v :| v in s.vectors && v.docUuid == d && v.chunkUuid == c;
          assert v in s'.vectors;
        }
        if c in Ids(chunks) {
          var i :| 0 <= i < |chunks| && chunks[i].chunkUuid == c;
          assert rows[i] in s'.vectors;
        }
      }
      assert WithoutVectors(s', d).vectors == WithoutVectors(s, d).vectors;
    }
  }

  lemma Neo4jCreateScript(s: Stores, d: DocUuid, chunks: seq<Chunk>, vec: bool)
    requires Ids(chunks) <= PgChunks(s, d)
    ensures var ops := Neo4jCreateStep(d, chunks).execute;
      && |ops| == 3 && Guarded(ops, s, d, vec)
      && After(ops, 1, s) == WithNode(s, d)
      && After(ops, 2, s) == WithNodes(s, d, chunks)
      && After(ops, 3, s) == WithNodes(s, d, chunks).(contains := After(ops, 3, s).contains)
      && GraphChunks(After(ops, 3, s), d) == GraphChunks(s, d) + Ids(chunks)
      && GraphChunks(After(ops, 2, s), d) == GraphChunks(s, d)
  {
    var ops := Neo4jCreateStep(d, chunks).execute;
    var ids := ChunkIds(chunks);
    NamesIds(chunks);
    assert (set c | c in ids) == Ids(chunks);
    assert After(ops, 1, s) == Apply(ops[0], s);
    assert After(ops, 2, s) == Apply(ops[1], After(ops, 1, s));
    var s2, s3 := After(ops, 2, s), After(ops, 3, s);
    assert s3 == Apply(ops[2], s2);
    assert PgChunks(s2, d) == PgChunks(s, d);
    forall c ensures c in GraphChunks(s3, d) <==> c in GraphChunks(s, d) + Ids(chunks) {
      assert c in GraphChunks(s3, d) <==> Edge(d, c) in s3.contains;
      assert c in GraphChunks(s, d) <==> Edge(d, c) in s.contains;
    }
  }

  lemma {:induction false} GraphGuarded(s: Stores, d: DocUuid, chunks: seq<Chunk>, vec: bool)
    requires Ids(chunks) <= PgChunks(s, d)
    ensures |Neo4jCreateStep(d, chunks).execute| == 3
    ensures Guarded(Neo4jCreateStep(d, chunks).execute, s, d, vec)
  {
    Neo4jCreateScript(s, d, chunks, vec);
  }

  lemma DeleteVectorsScript(s: Stores, d: DocUuid, vec: bool)
    ensures var ops := [DeleteVectors(d)];
      && Guarded(ops, s, d, vec)
      && After(ops, 1, s) == WithoutVectors(s, d)
      && VectorChunks(WithoutVectors(s, d), d) == {}
      && PgChunks(WithoutVectors(s, d), d) == PgChunks(s, d)
      && GraphChunks(WithoutVectors(s, d), d) == GraphChunks(s, d)
  {
  }

  lemma DeleteDocumentScript(s: Stores, d: DocUuid, vec: bool)
    requires GraphChunks(s, d) == {} && (vec ==> VectorChunks(s, d) == {})
    ensures var ops := [DeleteDocument(d)];
      && Guarded(ops, s, d, vec)
      && After(ops, 1, s) == Apply(DeleteDocument(d), s)
      && PgChunks(After(ops, 1, s), d) == {}
  {
  }

  // ---------------------------------------------------------------- the create saga

  /** What a create of a fresh document may leave behind, by the step that failed, when every
      compensation succeeded: only the writes of the failing step itself. */
  ghost predicate Residue(s: Stores, req: Request, failed: StepName, s': Stores)
    requires req.CreateSaga?
  {
    var d := req.Doc();
    match failed
    case PostgresCreate => s' == s || s' == WithDocument(s, req.doc)
    case MilvusCreate => s' == s
    case _ =>
      var s1 := WithoutVectors(s, d);
      s' == s1 || s' == WithNode(s1, d) || s' == WithNodes(s1, d, req.chunks)
  }

  /** The compensations a create reports when its graph step failed: newest first, failures left out. */
  predicate UndoNames(names: seq<StepName>) {
    || names == []
    || names == [PostgresCreate]
    || names == [MilvusCreate]
    || names == [MilvusCreate, PostgresCreate]
  }

  /** State s3 after the compensations `names` of a create that began in s. */
  function Undone(s: Stores, s3: Stores, d: DocUuid, names: seq<StepName>): Stores {
    var s1 := if MilvusCreate in names then WithoutVectors(s3, d) else s3;
    if PostgresCreate in names then s1.(documents := s.documents, chunkRows := s.chunkRows) else s1
  }

  /** Everything a create can return, with the stores it leaves. */
  ghost predicate CreateEnd(s: Stores, req: Request, r: Result, s': Stores)
    requires req.CreateSaga?
  {
    var d := req.Doc();
    var ids := Ids(req.chunks);
    if r.success then
      && r == Result(true, [PostgresCreate, MilvusCreate, Neo4jCreate], [], None)
      && d !in s.documents && s'.documents == s.documents[d := req.doc]
      && PgChunks(s', d) == GraphChunks(s', d) == ids
      && VectorChunks(s', d) == VectorChunks(s, d) + ids
    else
      && r.failed.Some?
      && match r.failed.value
         case PostgresCreate => r.executed == [] && r.compensated == [] && Residue(s, req, PostgresCreate, s')
         case MilvusCreate =>
           && r.executed == [PostgresCreate]
           && (if r.compensated == [] then s' == WithChunks(s, req.doc, req.chunks)
               else r.compensated == [PostgresCreate] && s' == s)
         case Neo4jCreate =>
           && r.executed == [PostgresCreate, MilvusCreate]
           && (if PostgresCreate in r.compensated then PgChunks(s', d) == {} else PgChunks(s', d) == ids)
           && VectorChunks(s', d) == (if MilvusCreate in r.compensated then {} else VectorChunks(s, d) + ids)
           && GraphChunks(s', d) == {}
           && UndoNames(r.compensated)
           && (|r.compensated| == 2 ==> Residue(s, req, Neo4jCreate, s'))
         case _ => false
  }

  lemma CreateUndoPostgres(f: Oracle, w: World, steps: seq<Step>, req: Request, r: Result, s: Stores,
      s0: Origin, vec: bool)
    requires req.CreateSaga? && req.Valid()
    requires |steps| > 0 && steps[0] == PostgresCreateStep(req.Doc(), req.doc, req.chunks)
    requires Safe(w, s0, req.Doc(), vec)
    requires WellFormed(s) && req.Doc() !in s.documents
    requires w.stores.documents == WithDocument(s, req.doc).documents
    requires w.stores.chunkRows == WithChunks(s, req.doc, req.chunks).chunkRows
    requires GraphChunks(w.stores, req.Doc()) == {} && (vec ==> VectorChunks(w.stores, req.Doc()) == {})
    ensures Safe(CompensateDown(f, w, steps, 1, r).0, s0, req.Doc(), vec)
    ensures var (w', r') := CompensateDown(f, w, steps, 1, r);
      || (r' == r && w'.stores == w.stores)
      || (r' == r.(compensated := r.compensated + [PostgresCreate])
          && w'.stores == w.stores.(documents := s.documents, chunkRows := s.chunkRows))
  {
    var d := req.Doc();
    DeleteDocumentScript(w.stores, d, vec);
    var _ := CompensateKeeps(f, w, steps[0], s0, d, vec);
    var (w1, ok) := CompensateStep(f, w, steps[0]);
    var r1 := if ok then r.(compensated := r.compensated + [PostgresCreate]) else r;
    assert CompensateDown(f, w, steps, 1, r) == CompensateDown(f, w1, steps, 0, r1) == (w1, r1);
    var s1 := Apply(DeleteDocument(d), w.stores);
    assert s1.documents == s.documents;
    assert s1.chunkRows == s.chunkRows;
  }

  /** The vectors in `w` may or may not be included in the invariant; once the row of the document is
      gone while its vectors are not, they no longer can be. */
  lemma CreateUndoTwo(f: Oracle, w: World, steps: seq<Step>, req: Request, r: Result, s: Stores, s0: Origin, vec: bool)
    requires req.CreateSaga? && req.Valid()
    requires |steps| > 1 && steps[0] == PostgresCreateStep(req.Doc(), req.doc, req.chunks)
    requires steps[1].name == MilvusCreate && steps[1].compensate == [DeleteVectors(req.Doc())]
    requires Safe(w, s0, req.Doc(), vec)
    requires WellFormed(s) && req.Doc() !in s.documents && r.compensated == []
    requires w.stores.documents == WithDocument(s, req.doc).documents
    requires w.stores.chunkRows == WithChunks(s, req.doc, req.chunks).chunkRows
    requires GraphChunks(w.stores, req.Doc()) == {}
    ensures var (w', r') := CompensateDown(f, w, steps, 2, r);
      && Safe(w', s0, req.Doc(),
              vec && (r'.compensated == [PostgresCreate] ==> VectorChunks(w.stores, req.Doc()) == {}))
      && r' == r.(compensated := r'.compensated)
      && UndoNames(r'.compensated)
      && w'.stores == Undone(s, w.stores, req.Doc(), r'.compensated)
  {
    var d := req.Doc();
    DeleteVectorsScript(w.stores, d, vec);
    var _ := CompensateKeeps(f, w, steps[1], s0, d, vec);
    var (w1, ok) := CompensateStep(f, w, steps[1]);
    var r1 := if ok then r.(compensated := r.compensated + [MilvusCreate]) else r;
    assert r.compensated + [MilvusCreate] == [MilvusCreate];
    assert CompensateDown(f, w, steps, 2, r) == CompensateDown(f, w1, steps, 1, r1);
    var (w', r') := CompensateDown(f, w1, steps, 1, r1);
    assert r1.compensated + [PostgresCreate] == if ok then [MilvusCreate, PostgresCreate] else [PostgresCreate];
    if !ok && vec && VectorChunks(w.stores, d) != {} {
      SafeWithout(w1, s0, d);
      CreateUndoPostgres(f, w1, steps, req, r1, s, s0, false);
      UndoneOrSame(f, w1, steps, r1, s0, d);
    } else {
      CreateUndoPostgres(f, w1, steps, req, r1, s, s0, vec);
    }
  }

  lemma SafeWithout(w: World, s0: Origin, d: DocUuid)
    requires Safe(w, s0, d, true)
    ensures Safe(w, s0, d, false)
  {
  }

  /** A compensation of the first step that did nothing keeps whatever held before it. */
  lemma UndoneOrSame(f: Oracle, w: World, steps: seq<Step>, r: Result, s0: Origin, d: DocUuid)
    requires |steps| > 0 && |steps[0].compensate| == 1 && Safe(w, s0, d, true)
    ensures var (w', r') := CompensateDown(f, w, steps, 1, r);
      r'.compensated == r.compensated ==> Safe(w', s0, d, true)
  {
  }

  lemma CreateRuns(f: Oracle, w: World, req: Request, e: Option<Embeddings>, s0: Origin, vec: bool)
    requires req.CreateSaga? && req.Valid() && Safe(w, s0, req.Doc(), vec)
    ensures var (w', r) := RunSteps(f, w, CreateSteps(req.doc, req.chunks, e));
      && CreateEnd(w.stores, req, r, w'.stores)
      && Safe(w', s0, req.Doc(), vec && !Orphans(req, Returned(r)))
      && (vec && Orphans(req, Returned(r)) ==> !VectorsBehind(w'.stores))
  {
    var d, s := req.Doc(), w.stores;
    var steps := CreateSteps(req.doc, req.chunks, e);
    PostgresCreateScript(s, req, vec);
    var k1 := ExecuteKeeps(f, w, steps[0], s0, d, vec);
    var (w1, ok1) := ExecuteStep(f, w, steps[0]);
    if !ok1 {
      var r1 := STARTED.(success := false, failed := Some(PostgresCreate));
      assert RunSteps(f, w, steps) == CompensateDown(f, w1, steps, 0, r1) == (w1, r1);
    } else {
      CreatedFacts(s, req, vec);
      var r1 := STARTED.(executed := [PostgresCreate]);
      assert STARTED.executed + [PostgresCreate] == [PostgresCreate];
      assert RunSteps(f, w, steps) == ExecuteFrom(f, w1, steps, 1, r1);
      CreateFromMilvus(f, w1, steps, req, e, s, s0, vec);
    }
  }

  lemma CreateFromMilvus(f: Oracle, w1: World, steps: seq<Step>, req: Request, e: Option<Embeddings>,
      s: Stores, s0: Origin, vec: bool)
    requires req.CreateSaga? && req.Valid() && Safe(w1, s0, req.Doc(), vec)
    requires WellFormed(s) && GraphBehind(s) && (vec ==> VectorsBehind(s))
    requires req.Doc() !in s.documents && w1.stores == WithChunks(s, req.doc, req.chunks)
    requires steps == CreateSteps(req.doc, req.chunks, e)
    ensures var (w', r) := ExecuteFrom(f, w1, steps, 1, STARTED.(executed := [PostgresCreate]));
      && CreateEnd(s, req, r, w'.stores)
      && Safe(w', s0, req.Doc(), vec && !Orphans(req, Returned(r)))
      && (vec && Orphans(req, Returned(r)) ==> !VectorsBehind(w'.stores))
  {
    var d := req.Doc();
    var r1 := STARTED.(executed := [PostgresCreate]);
    CreatedFacts(s, req, vec);
    MilvusCreateScript(w1.stores, d, req.chunks, e, vec);
    var k2 := ExecuteKeeps(f, w1, steps[1], s0, d, vec);
    var (w2, ok2) := ExecuteStep(f, w1, steps[1]);
    if !ok2 {
      var r2 := r1.(success := false, failed := Some(MilvusCreate));
      assert ExecuteFrom(f, w1, steps, 1, r1) == CompensateDown(f, w2, steps, 1, r2);
      CreateUndoPostgres(f, w2, steps, req, r2, s, s0, vec);
    } else {
      var r2 := r1.(executed := [PostgresCreate, MilvusCreate]);
      assert r1.executed + [MilvusCreate] == r2.executed;
      assert ExecuteFrom(f, w1, steps, 1, r1) == ExecuteFrom(f, w2, steps, 2, r2);
      VectorsInPlace(s, req, e, vec);
      CreateFromNeo4j(f, w2, steps, req, e, s, s0, vec);
    }
  }

  /** The state in which the graph step of a create starts, and those in which it can stop. */
  ghost predicate BeforeGraph(s: Stores, req: Request, s2: Stores)
    requires req.CreateSaga?
  {
    && s2 == WithChunks(s, req.doc, req.chunks).(vectors := s2.vectors)
    && PgChunks(s2, req.Doc()) == Ids(req.chunks) && GraphChunks(s2, req.Doc()) == {}
    && VectorChunks(s2, req.Doc()) == VectorChunks(s, req.Doc()) + Ids(req.chunks)
    && WithoutVectors(s2, req.Doc()).vectors == WithoutVectors(s, req.Doc()).vectors
  }

  lemma VectorsInPlace(s: Stores, req: Request, e: Option<Embeddings>, vec: bool)
    requires req.CreateSaga? && req.Valid()
    requires WellFormed(s) && GraphBehind(s) && (vec ==> VectorsBehind(s)) && req.Doc() !in s.documents
    requires var ops := MilvusCreateStep(req.Doc(), req.chunks, e).execute;
      |ops| == 1 && Accepted(ops, 1, WithChunks(s, req.doc, req.chunks))
    ensures var ops := MilvusCreateStep(req.Doc(), req.chunks, e).execute;
      BeforeGraph(s, req, After(ops, 1, WithChunks(s, req.doc, req.chunks)))
  {
    var s1 := WithChunks(s, req.doc, req.chunks);
    CreatedFacts(s, req, vec);
    MilvusCreateScript(s1, req.Doc(), req.chunks, e, vec);
    var s2 := After(MilvusCreateStep(req.Doc(), req.chunks, e).execute, 1, s1);
    assert PgChunks(s2, req.Doc()) == PgChunks(s1, req.Doc());
    assert GraphChunks(s2, req.Doc()) == GraphChunks(s1, req.Doc());
    assert VectorChunks(s1, req.Doc()) == VectorChunks(s, req.Doc());
  }

  ghost predicate InGraph(s: Stores, req: Request, s3: Stores)
    requires req.CreateSaga?
  {
    exists s2 :: BeforeGraph(s, req, s2)
      && (s3 == s2 || s3 == WithNode(s2, req.Doc()) || s3 == WithNodes(s2, req.Doc(), req.chunks))
  }

  lemma InGraphFacts(s: Stores, req: Request, s3: Stores)
    requires req.CreateSaga? && InGraph(s, req, s3)
    ensures BeforeGraph(s, req, s3.(docNodes := s.docNodes, chunkNodes := s.chunkNodes))
    ensures PgChunks(s3, req.Doc()) == Ids(req.chunks) && GraphChunks(s3, req.Doc()) == {}
    ensures VectorChunks(s3, req.Doc()) == VectorChunks(s, req.Doc()) + Ids(req.chunks)
    ensures || (s3.docNodes == s.docNodes && s3.chunkNodes == s.chunkNodes)
            || (s3.docNodes == s.docNodes + {req.Doc()} && s3.chunkNodes == s.chunkNodes)
            || (s3.docNodes == s.docNodes + {req.Doc()} && s3.chunkNodes == s.chunkNodes + Ids(req.chunks))
  {
  }

  lemma GraphStep(s: Stores, req: Request, s2: Stores, k: nat)
    requires req.CreateSaga? && req.Valid() && req.Doc() !in s.documents && BeforeGraph(s, req, s2)
    requires k <= 3
    ensures var s3 := After(Neo4jCreateStep(req.Doc(), req.chunks).execute, k, s2);
      && (k < 3 ==> InGraph(s, req, s3))
      && (k == 3 ==> CreateEnd(s, req, Result(true, [PostgresCreate, MilvusCreate, Neo4jCreate], [], None), s3))
  {
    Neo4jCreateScript(s2, req.Doc(), req.chunks, false);
    var s3 := After(Neo4jCreateStep(req.Doc(), req.chunks).execute, k, s2);
    assert PgChunks(s3, req.Doc()) == PgChunks(s2, req.Doc());
    assert VectorChunks(s3, req.Doc()) == VectorChunks(s2, req.Doc());
  }

  lemma GraphStepRuns(f: Oracle, w2: World, req: Request, s: Stores, s0: Origin, vec: bool)
    requires req.CreateSaga? && req.Valid() && Safe(w2, s0, req.Doc(), vec)
    requires req.Doc() !in s.documents && BeforeGraph(s, req, w2.stores)
    ensures var (w3, ok) := ExecuteStep(f, w2, Neo4jCreateStep(req.Doc(), req.chunks));
      && Safe(w3, s0, req.Doc(), vec)
      && (ok ==> CreateEnd(s, req, Result(true, [PostgresCreate, MilvusCreate, Neo4jCreate], [], None), w3.stores))
      && (!ok ==> InGraph(s, req, w3.stores))
  {
    GraphGuarded(w2.stores, req.Doc(), req.chunks, vec);
    var k := ExecuteKeeps(f, w2, Neo4jCreateStep(req.Doc(), req.chunks), s0, req.Doc(), vec);
    GraphStep(s, req, w2.stores, k);
  }

  lemma CreateFailsInGraph(f: Oracle, w3: World, steps: seq<Step>, req: Request, e: Option<Embeddings>,
      r: Result, s: Stores, s0: Origin, vec: bool)
    requires req.CreateSaga? && req.Valid() && Safe(w3, s0, req.Doc(), vec)
    requires WellFormed(s) && (vec ==> VectorsBehind(s))
    requires req.Doc() !in s.documents && InGraph(s, req, w3.stores)
    requires steps == CreateSteps(req.doc, req.chunks, e)
    requires r == Result(false, [PostgresCreate, MilvusCreate], [], Some(Neo4jCreate))
    ensures var (w', r') := CompensateDown(f, w3, steps, 2, r);
      && CreateEnd(s, req, r', w'.stores)
      && Safe(w', s0, req.Doc(), vec && !Orphans(req, Returned(r')))
      && (vec && Orphans(req, Returned(r')) ==> !VectorsBehind(w'.stores))
  {
    InGraphFacts(s, req, w3.stores);
    CreateUndoTwo(f, w3, steps, req, r, s, s0, vec);
    var (w', r') := CompensateDown(f, w3, steps, 2, r);
    CreateNeo4jEnd(s, req, w3.stores, w'.stores, r');
    if vec && r'.compensated == [PostgresCreate] && req.chunks == [] {
      assert PgChunks(s, req.Doc()) == {};
      assert VectorChunks(s, req.Doc()) == {} by {
        assert forall v :: v in s.vectors && v.docUuid == req.Doc() ==> v.chunkUuid in PgChunks(s, req.Doc());
      }
    }
  }

  lemma CreateFromNeo4j(f: Oracle, w2: World, steps: seq<Step>, req: Request, e: Option<Embeddings>, s: Stores,
      s0: Origin, vec: bool)
    requires req.CreateSaga? && req.Valid() && Safe(w2, s0, req.Doc(), vec)
    requires WellFormed(s) && (vec ==> VectorsBehind(s))
    requires req.Doc() !in s.documents && BeforeGraph(s, req, w2.stores)
    requires steps == CreateSteps(req.doc, req.chunks, e)
    ensures var (w', r) := ExecuteFrom(f, w2, steps, 2, STARTED.(executed := [PostgresCreate, MilvusCreate]));
      && CreateEnd(s, req, r, w'.stores)
      && Safe(w', s0, req.Doc(), vec && !Orphans(req, Returned(r)))
      && (vec && Orphans(req, Returned(r)) ==> !VectorsBehind(w'.stores))
  {
    var d := req.Doc();
    var r2 := STARTED.(executed := [PostgresCreate, MilvusCreate]);
    GraphStepRuns(f, w2, req, s, s0, vec);
    var (w3, ok3) := ExecuteStep(f, w2, steps[2]);
    if !ok3 {
      var r3 := r2.(success := false, failed := Some(Neo4jCreate));
      assert ExecuteFrom(f, w2, steps, 2, r2) == CompensateDown(f, w3, steps, 2, r3);
      CreateFailsInGraph(f, w3, steps, req, e, r3, s, s0, vec);
    } else {
      var r3 := r2.(executed := [PostgresCreate, MilvusCreate, Neo4jCreate]);
      assert r2.executed + [Neo4jCreate] == r3.executed;
      assert ExecuteFrom(f, w2, steps, 2, r2) == ExecuteFrom(f, w3, steps, 3, r3) == (w3, r3);
    }
  }

  /** Reading the end of a create off the state s3 in which the graph step failed. */
  lemma CreateNeo4jEnd(s: Stores, req: Request, s3: Stores, s': Stores, r: Result)
    requires req.CreateSaga? && WellFormed(s) && req.Doc() !in s.documents
    requires InGraph(s, req, s3)
    requires !r.success && r.failed == Some(Neo4jCreate) && r.executed == [PostgresCreate, MilvusCreate]
    requires UndoNames(r.compensated) && s' == Undone(s, s3, req.Doc(), r.compensated)
    ensures CreateEnd(s, req, r, s')
    ensures Orphans(req, Returned(r)) ==> !VectorsBehind(s')
  {
    var d := req.Doc();
    InGraphFacts(s, req, s3);
    assert PgChunks(s, d) == {};
    assert PgChunks(s', d) == if PostgresCreate in r.compensated then {} else Ids(req.chunks);
    assert VectorChunks(s', d) == if MilvusCreate in r.compensated then {} else VectorChunks(s3, d);
    assert GraphChunks(s', d) == {};
    if Orphans(req, Returned(r)) {
      assert req.chunks[0].chunkUuid in Ids(req.chunks);
      assert req.chunks[0].chunkUuid in VectorChunks(s', d);
      var v :| v in s'.vectors && v.docUuid == d && v.chunkUuid == req.chunks[0].chunkUuid;
    }
  }

  // ---------------------------------------------------------------- the delete saga

  function WithoutGraph(s: Stores, d: DocUuid): Stores {
    Apply(DeleteGraph(d), s)
  }

  function Cleared(s: Stores, d: DocUuid): Stores {
    WithoutVectors(WithoutGraph(s, d), d)
  }

  lemma Neo4jDeleteScript(s: Stores, d: DocUuid, vec: bool)
    requires WellFormed(s)
    ensures var ops := Neo4jDeleteStep(d).execute;
      && Guarded(ops, s, d, vec)
      && After(ops, 1, s) == s && After(ops, 2, s) == WithoutGraph(s, d)
    ensures GraphChunks(WithoutGraph(s, d), d) == {}
    ensures PgChunks(WithoutGraph(s, d), d) == PgChunks(s, d)
  {
  }

  lemma PostgresDeleteScript(s: Stores, d: DocUuid, vec: bool)
    requires GraphChunks(s, d) == {} && VectorChunks(s, d) == {}
    ensures var ops := PostgresDeleteStep(d).execute;
      && Guarded(ops, s, d, vec)
      && After(ops, 1, s) == s && After(ops, 2, s) == s && After(ops, 3, s) == Apply(DeleteDocument(d), s)
  {
  }

  /** Everything a delete, or the clearing phase of an update, can return.  A failure reports every
      executed step as compensated although nothing is restored. */
  ghost predicate DeleteEnd(s: Stores, d: DocUuid, r: Result, s': Stores) {
    if r.success then
      && r == Result(true, [Neo4jDelete, MilvusDelete, PostgresDelete], [], None)
      && s' == Apply(DeleteDocument(d), Cleared(s, d))
    else
      || (r == Result(false, [], [], Some(Neo4jDelete)) && s' == s)
      || (r == Result(false, [Neo4jDelete], [Neo4jDelete], Some(MilvusDelete)) && s' == WithoutGraph(s, d))
      || (r == Result(false, [Neo4jDelete, MilvusDelete], [MilvusDelete, Neo4jDelete], Some(PostgresDelete))
          && s' == Cleared(s, d))
  }

  lemma ClearedFacts(s: Stores, d: DocUuid)
    requires WellFormed(s)
    ensures GraphChunks(Cleared(s, d), d) == {} && VectorChunks(Cleared(s, d), d) == {}
    ensures Cleared(s, d).documents == s.documents && Cleared(s, d).chunkRows == s.chunkRows
    ensures Consistent(Apply(DeleteDocument(d), Cleared(s, d)), d, {})
  {
  }

  /** Compensating the clearing steps calls nothing and changes nothing. */
  lemma NothingToCompensate(f: Oracle, w: World, steps: seq<Step>, n: nat, r: Result)
    requires n <= 2 <= |steps| && steps[0].compensate == [] == steps[1].compensate
    ensures var (w', r') := CompensateDown(f, w, steps, n, r);
      && w'.stores == w.stores && w'.history == w.history && w'.calls == w.calls
      && r' == r.(compensated := r.compensated +
           if n == 0 then [] else if n == 1 then [steps[0].name] else [steps[1].name, steps[0].name])
    decreases n
  {
  }

  /** In the run of `steps`, the graph and the vectors of d are gone in w2, where step 2 starts. */
  ghost predicate ClearedRun(f: Oracle, w: World, steps: seq<Step>, d: DocUuid, s0: Origin, vec: bool, w2: World)
    requires |steps| >= 2
  {
    && Safe(w2, s0, d, vec) && w2.stores == Cleared(w.stores, d)
    && RunSteps(f, w, steps) == ExecuteFrom(f, w2, steps, 2, STARTED.(executed := [Neo4jDelete, MilvusDelete]))
  }

  /** The first two steps of a delete and of an update are the same. */
  lemma ClearRuns(f: Oracle, w: World, steps: seq<Step>, d: DocUuid, s0: Origin, vec: bool)
    requires Safe(w, s0, d, vec)
    requires |steps| >= 2 && steps[0] == Neo4jDeleteStep(d) && steps[1] == MilvusDeleteStep(d)
    ensures var (w', r') := RunSteps(f, w, steps);
      || (&& Safe(w', s0, d, vec) && !r'.success && DeleteEnd(w.stores, d, r', w'.stores)
          && r'.failed != Some(PostgresDelete))
      || (exists w2: World :: ClearedRun(f, w, steps, d, s0, vec, w2))
  {
    var s := w.stores;
    Neo4jDeleteScript(s, d, vec);
    var k1 := ExecuteKeeps(f, w, steps[0], s0, d, vec);
    var (w1, ok1) := ExecuteStep(f, w, steps[0]);
    if !ok1 {
      var r := STARTED.(success := false, failed := Some(Neo4jDelete));
      assert RunSteps(f, w, steps) == CompensateDown(f, w1, steps, 0, r) == (w1, r);
    } else {
      DeleteVectorsScript(w1.stores, d, vec);
      var r1 := STARTED.(executed := [Neo4jDelete]);
      assert STARTED.executed + [Neo4jDelete] == [Neo4jDelete];
      assert RunSteps(f, w, steps) == ExecuteFrom(f, w1, steps, 1, r1);
      var k2 := ExecuteKeeps(f, w1, steps[1], s0, d, vec);
      var (w2, ok2) := ExecuteStep(f, w1, steps[1]);
      if !ok2 {
        var r := r1.(success := false, failed := Some(MilvusDelete));
        assert ExecuteFrom(f, w1, steps, 1, r1) == CompensateDown(f, w2, steps, 1, r);
        NothingToCompensate(f, w2, steps, 1, r);
      } else {
        var r2 := STARTED.(executed := [Neo4jDelete, MilvusDelete]);
        assert r1.executed + [MilvusDelete] == r2.executed;
        assert ExecuteFrom(f, w1, steps, 1, r1) == ExecuteFrom(f, w2, steps, 2, r2);
        assert ClearedRun(f, w, steps, d, s0, vec, w2);
      }
    }
  }

  /** The last step of a delete, from the cleared state. */
  lemma DeleteFromPostgres(f: Oracle, w2: World, steps: seq<Step>, d: DocUuid, r2: Result, s: Stores,
      s0: Origin, vec: bool)
    requires WellFormed(s) && Safe(w2, s0, d, vec) && w2.stores == Cleared(s, d)
    requires steps == DeleteSteps(d) && r2 == Result(true, [Neo4jDelete, MilvusDelete], [], None)
    ensures var (w', r) := ExecuteFrom(f, w2, steps, 2, r2);
      Safe(w', s0, d, vec) && DeleteEnd(s, d, r, w'.stores)
  {
    ClearedFacts(s, d);
    PostgresDeleteScript(w2.stores, d, vec);
    var k3 := ExecuteKeeps(f, w2, steps[2], s0, d, vec);
    var (w3, ok3) := ExecuteStep(f, w2, steps[2]);
    if ok3 {
      var r3 := r2.(executed := [Neo4jDelete, MilvusDelete, PostgresDelete]);
      assert r2.executed + [PostgresDelete] == r3.executed;
      assert ExecuteFrom(f, w2, steps, 2, r2) == ExecuteFrom(f, w3, steps, 3, r3) == (w3, r3);
    } else {
      var r3 := r2.(success := false, failed := Some(PostgresDelete));
      assert ExecuteFrom(f, w2, steps, 2, r2) == CompensateDown(f, w3, steps, 2, r3);
      NothingToCompensate(f, w3, steps, 2, r3);
    }
  }

  /** What is gone is what the executed steps name. */
  lemma {:induction false} EndRemoves(s: Stores, d: DocUuid, r: Result, s': Stores)
    requires DeleteEnd(s, d, r, s')
    ensures Removed(s, s', d, Neo4jDelete in r.executed, MilvusDelete in r.executed, PostgresDelete in r.executed)
  {
    ClearedRemoves(s, d);
    DeletionsRemove(s, d);
  }

  lemma {:induction false} ClearedRemoves(s: Stores, d: DocUuid)
    ensures Removed(s, Cleared(s, d), d, true, true, false)
    ensures Removed(s, Apply(DeleteDocument(d), Cleared(s, d)), d, true, true, true)
  {
    DeletionsRemove(s, d);
    DeletionsRemove(WithoutGraph(s, d), d);
    DeletionsRemove(Cleared(s, d), d);
  }

  lemma DeleteRuns(f: Oracle, w: World, d: DocUuid, s0: Origin, vec: bool)
    requires Safe(w, s0, d, vec)
    ensures var (w', o) := RunDelete(f, w, d);
      && o.Returned? && Safe(w', s0, d, vec) && DeleteEnd(w.stores, d, o.result, w'.stores)
      && var done := o.result.executed;
      Removed(w.stores, w'.stores, d, Neo4jDelete in done, MilvusDelete in done, PostgresDelete in done)
  {
    var steps := DeleteSteps(d);
    ClearRuns(f, w, steps, d, s0, vec);
    var (w', r') := RunSteps(f, w, steps);
    if w2: World :| ClearedRun(f, w, steps, d, s0, vec, w2) {
      DeleteFromPostgres(f, w2, steps, d, STARTED.(executed := [Neo4jDelete, MilvusDelete]), w.stores, s0, vec);
    }
    EndRemoves(w.stores, d, r', w'.stores);
  }

  // ---------------------------------------------------------------- the update saga

  /** What an update guarantees at its end, by how far it came. */
  ghost predicate UpdateEnd(s: Stores, req: Request, o: Outcome, s': Stores)
    requires req.UpdateSaga?
  {
    var d := req.Doc();
    var ids := Ids(req.chunks);
    match o
    case Raised => PgChunks(s', d) == ids && VectorChunks(s', d) == GraphChunks(s', d) == {}
    case Returned(r) =>
      if r.success then
        && r.executed == [Neo4jDelete, MilvusDelete, PostgresUpdate, MilvusCreate, Neo4jCreate]
        && r.compensated == []
        && Consistent(s', d, ids)
        && s'.documents == (if d in s.documents then s.documents[d := req.doc] else s.documents)
        && (req.chunks != [] ==> d in s.documents)
      else
        && r.failed.Some?
        && match r.failed.value
           case PostgresUpdate =>
             && r.executed == [Neo4jDelete, MilvusDelete] && r.compensated == []
             && VectorChunks(s', d) == GraphChunks(s', d) == {}
             && (PgChunks(s', d) == PgChunks(s, d) || PgChunks(s', d) == {})
           case MilvusCreate =>
             && r.executed == [Neo4jDelete, MilvusDelete, PostgresUpdate] && r.compensated == []
             && PgChunks(s', d) == ids && VectorChunks(s', d) == GraphChunks(s', d) == {}
           case Neo4jCreate =>
             && r.executed == [Neo4jDelete, MilvusDelete, PostgresUpdate, MilvusCreate]
             && PgChunks(s', d) == ids && GraphChunks(s', d) == {}
             && ((r.compensated == [MilvusCreate] && VectorChunks(s', d) == {})
                 || (r.compensated == [] && VectorChunks(s', d) == ids))
           case _ => DeleteEnd(s, d, r, s')
  }

  lemma PostgresUpdateScript(s: Stores, req: Request, k: nat, vec: bool)
    requires req.UpdateSaga? && req.Valid() && WellFormed(s)
    requires GraphChunks(s, req.Doc()) == {} && VectorChunks(s, req.Doc()) == {}
    requires k <= |PostgresUpdateStep(req.Doc(), req.doc, req.chunks).execute|
    ensures var ops := PostgresUpdateStep(req.Doc(), req.doc, req.chunks).execute;
      var s' := After(ops, k, s);
      var d := req.Doc();
      && Guarded(ops, s, d, vec)
      && GraphChunks(s', d) == {} && VectorChunks(s', d) == {}
      && (k < |ops| ==> PgChunks(s', d) == PgChunks(s, d) || PgChunks(s', d) == {})
      && (k == |ops| ==>
            && PgChunks(s', d) == Ids(req.chunks)
            && s'.documents == (if d in s.documents then s.documents[d := req.doc] else s.documents)
            && (Accepted(ops, k, s) && req.chunks != [] ==> d in s.documents))
  {
    var d := req.Doc();
    var ops := PostgresUpdateStep(d, req.doc, req.chunks).execute;
    var s1, s2, s3, s4 := After(ops, 1, s), After(ops, 2, s), After(ops, 3, s), After(ops, 4, s);
    assert s1 == s && s2 == s by {
      assert s1 == Apply(ops[0], After(ops, 0, s));
      assert s2 == Apply(ops[1], s1);
    }
    assert s3 == Apply(UpdateDocument(d, req.doc), s) by { assert s3 == Apply(ops[2], s2); }
    assert s4 == Apply(DeleteChunks(d), s3) by { assert s4 == Apply(ops[3], s3); }
    assert PgChunks(s3, d) == PgChunks(s, d) && PgChunks(s4, d) == {};
    assert GraphChunks(s3, d) == {} && VectorChunks(s3, d) == {};
    assert GraphChunks(s4, d) == {} && VectorChunks(s4, d) == {};
    if req.chunks != [] {
      var s5 := After(ops, 5, s);
      assert s5 == Apply(CreateChunks(req.chunks), s4) by { assert s5 == Apply(ops[4], s4); }
      assert GraphChunks(s5, d) == {} && VectorChunks(s5, d) == {};
      forall c ensures c in PgChunks(s5, d) <==> c in Ids(req.chunks) {
        if c in Ids(req.chunks) {
          var r :| r in req.chunks && r.chunkUuid == c;
          assert r in s5.chunkRows && r.docUuid == d;
        }
      }
      if Accepted(ops, 5, s) {
        assert Accepts(ops[4], s4);
        assert req.chunks[0].docUuid in s4.documents;
      }
    }
  }

  lemma UpdateRuns(f: Oracle, w: World, req: Request, s0: Origin, vec: bool)
    requires req.UpdateSaga? && req.Valid() && Safe(w, s0, req.Doc(), vec)
    ensures var (w', o) := RunUpdate(f, w, req);
      Safe(w', s0, req.Doc(), vec) && UpdateEnd(w.stores, req, o, w'.stores)
  {
    var d, s := req.Doc(), w.stores;
    var clear := ClearSteps(d);
    ClearRuns(f, w, clear, d, s0, vec);
    ClearedFacts(s, d);
    var r2 := STARTED.(executed := [Neo4jDelete, MilvusDelete]);
    var (w1, r1) := RunSteps(f, w, clear);
    if w2: World :| ClearedRun(f, w, clear, d, s0, vec, w2) {
      assert (w1, r1) == (w2, r2);
      UpdatePostgres(f, w1, req, s, s0, vec);
    }
  }

  /** Phases 2 and 3 of an update, from the cleared state. */
  lemma UpdatePostgres(f: Oracle, w1: World, req: Request, s: Stores, s0: Origin, vec: bool)
    requires req.UpdateSaga? && req.Valid() && Safe(w1, s0, req.Doc(), vec)
    requires WellFormed(s) && w1.stores == Cleared(s, req.Doc())
    ensures var r1 := STARTED.(executed := [Neo4jDelete, MilvusDelete]);
      var (w2, ok) := ExecuteStep(f, w1, PostgresUpdateStep(req.Doc(), req.doc, req.chunks));
      var (w', o) :=
        if ok then Rebuild(f, w2, req, r1) else
          (CompensateDown(f, w2, ClearSteps(req.Doc()), 2, r1).0,
           Returned(Result(false, r1.executed, [], Some(PostgresUpdate))));
      Safe(w', s0, req.Doc(), vec) && UpdateEnd(s, req, o, w'.stores)
  {
    var d := req.Doc();
    var step := PostgresUpdateStep(d, req.doc, req.chunks);
    var r1 := STARTED.(executed := [Neo4jDelete, MilvusDelete]);
    ClearedFacts(s, d);
    PostgresUpdateScript(w1.stores, req, 0, vec);
    var k := ExecuteKeeps(f, w1, step, s0, d, vec);
    PostgresUpdateScript(w1.stores, req, k, vec);
    var (w2, ok) := ExecuteStep(f, w1, step);
    assert PgChunks(w1.stores, d) == PgChunks(s, d);
    if ok {
      RebuildRuns(f, w2, req, s, s0, vec);
    } else {
      NothingToCompensate(f, w2, ClearSteps(d), 2, r1);
    }
  }

  /** The two steps of phase 3, from a state in which only PostgreSQL has chunks. */
  lemma RebuildFromMilvus(f: Oracle, w: World, req: Request, e: Option<Embeddings>, s0: Origin, vec: bool)
    requires req.UpdateSaga? && req.Valid() && Safe(w, s0, req.Doc(), vec)
    requires PgChunks(w.stores, req.Doc()) == Ids(req.chunks)
    requires VectorChunks(w.stores, req.Doc()) == {} == GraphChunks(w.stores, req.Doc())
    ensures var (w', r) := RunSteps(f, w, RebuildSteps(req.Doc(), req.chunks, e));
      && Safe(w', s0, req.Doc(), vec)
      && w'.stores.documents == w.stores.documents
      && PgChunks(w'.stores, req.Doc()) == Ids(req.chunks)
      && (GraphEnd(req, r, w'.stores)
          || (r == Result(false, [], [], Some(MilvusCreate))
              && VectorChunks(w'.stores, req.Doc()) == {} == GraphChunks(w'.stores, req.Doc())))
  {
    var d := req.Doc();
    var steps := RebuildSteps(d, req.chunks, e);
    MilvusCreateScript(w.stores, d, req.chunks, e, vec);
    var k1 := ExecuteKeeps(f, w, steps[0], s0, d, vec);
    var (w1, ok1) := ExecuteStep(f, w, steps[0]);
    if !ok1 {
      var r := STARTED.(success := false, failed := Some(MilvusCreate));
      assert RunSteps(f, w, steps) == CompensateDown(f, w1, steps, 0, r) == (w1, r);
    } else {
      assert GraphChunks(w1.stores, d) == GraphChunks(w.stores, d) && PgChunks(w1.stores, d) == PgChunks(w.stores, d);
      assert RunSteps(f, w, steps) == ExecuteFrom(f, w1, steps, 1, STARTED.(executed := [MilvusCreate])) by {
        assert STARTED.executed + [MilvusCreate] == [MilvusCreate];
      }
      RebuildGraph(f, w1, steps, req, e, s0, vec);
    }
  }

  lemma RebuildRuns(f: Oracle, w: World, req: Request, s: Stores, s0: Origin, vec: bool)
    requires req.UpdateSaga? && req.Valid() && Safe(w, s0, req.Doc(), vec)
    requires PgChunks(w.stores, req.Doc()) == Ids(req.chunks)
    requires VectorChunks(w.stores, req.Doc()) == {} == GraphChunks(w.stores, req.Doc())
    requires w.stores.documents == (if req.Doc() in s.documents then s.documents[req.Doc() := req.doc] else s.documents)
    requires req.chunks != [] ==> req.Doc() in s.documents
    ensures var (w', o) := Rebuild(f, w, req, STARTED.(executed := [Neo4jDelete, MilvusDelete]));
      Safe(w', s0, req.Doc(), vec) && UpdateEnd(s, req, o, w'.stores)
  {
    var encoded := Encode(req.given, req.encoder, req.chunks);
    if encoded.Ready? {
      RebuildFromMilvus(f, w, req, encoded.embeddings, s0, vec);
    }
  }

  lemma GraphStates(s: Stores, d: DocUuid, chunks: seq<Chunk>, k: nat)
    requires Ids(chunks) <= PgChunks(s, d) && k <= 3
    ensures var s' := After(Neo4jCreateStep(d, chunks).execute, k, s);
      && s'.documents == s.documents
      && PgChunks(s', d) == PgChunks(s, d) && VectorChunks(s', d) == VectorChunks(s, d)
      && GraphChunks(s', d) == GraphChunks(s, d) + (if k < 3 then {} else Ids(chunks))
  {
    Neo4jCreateScript(s, d, chunks, false);
    var s' := After(Neo4jCreateStep(d, chunks).execute, k, s);
    assert PgChunks(s', d) == PgChunks(s, d) && VectorChunks(s', d) == VectorChunks(s, d);
    assert GraphChunks(WithNode(s, d), d) == GraphChunks(s, d);
  }

  /** How the last step of an update ends. */
  ghost predicate GraphEnd(req: Request, r: Result, s': Stores)
    requires req.UpdateSaga?
  {
    var d := req.Doc();
    if r.success then
      && r == Result(true, [MilvusCreate, Neo4jCreate], [], None)
      && VectorChunks(s', d) == GraphChunks(s', d) == Ids(req.chunks)
    else
      && r.executed == [MilvusCreate] && r.failed == Some(Neo4jCreate)
      && GraphChunks(s', d) == {}
      && ((r.compensated == [MilvusCreate] && VectorChunks(s', d) == {})
          || (r.compensated == [] && VectorChunks(s', d) == Ids(req.chunks)))
  }

  lemma RebuildGraph(f: Oracle, w1: World, steps: seq<Step>, req: Request, e: Option<Embeddings>, s0: Origin, vec: bool)
    requires req.UpdateSaga? && req.Valid() && Safe(w1, s0, req.Doc(), vec)
    requires steps == RebuildSteps(req.Doc(), req.chunks, e)
    requires PgChunks(w1.stores, req.Doc()) == Ids(req.chunks) == VectorChunks(w1.stores, req.Doc())
    requires GraphChunks(w1.stores, req.Doc()) == {}
    ensures var (w', r) := ExecuteFrom(f, w1, steps, 1, STARTED.(executed := [MilvusCreate]));
      && Safe(w', s0, req.Doc(), vec)
      && w'.stores.documents == w1.stores.documents
      && PgChunks(w'.stores, req.Doc()) == Ids(req.chunks)
      && GraphEnd(req, r, w'.stores)
  {
    var d := req.Doc();
    var r1 := STARTED.(executed := [MilvusCreate]);
    GraphGuarded(w1.stores, d, req.chunks, vec);
    var k2 := ExecuteKeeps(f, w1, steps[1], s0, d, vec);
    var (w2, ok2) := ExecuteStep(f, w1, steps[1]);
    GraphStates(w1.stores, d, req.chunks, k2);
    if ok2 {
      var r2 := r1.(executed := [MilvusCreate, Neo4jCreate]);
      assert r1.executed + [Neo4jCreate] == r2.executed;
      assert ExecuteFrom(f, w1, steps, 1, r1) == ExecuteFrom(f, w2, steps, 2, r2) == (w2, r2);
    } else {
      var r2 := r1.(success := false, failed := Some(Neo4jCreate));
      assert ExecuteFrom(f, w1, steps, 1, r1) == CompensateDown(f, w2, steps, 1, r2);
      RebuildUndone(f, w2, steps, req, e, s0, vec);
    }
  }

  /** The compensation of the vector step of an update whose graph step failed. */
  lemma RebuildUndone(f: Oracle, w2: World, steps: seq<Step>, req: Request, e: Option<Embeddings>, s0: Origin,
      vec: bool)
    requires req.UpdateSaga? && req.Valid() && Safe(w2, s0, req.Doc(), vec)
    requires steps == RebuildSteps(req.Doc(), req.chunks, e)
    requires PgChunks(w2.stores, req.Doc()) == Ids(req.chunks) == VectorChunks(w2.stores, req.Doc())
    requires GraphChunks(w2.stores, req.Doc()) == {}
    ensures var (w', r) := CompensateDown(f, w2, steps, 1, Result(false, [MilvusCreate], [], Some(Neo4jCreate)));
      && Safe(w', s0, req.Doc(), vec)
      && w'.stores.documents == w2.stores.documents
      && PgChunks(w'.stores, req.Doc()) == Ids(req.chunks)
      && !r.success && GraphEnd(req, r, w'.stores)
  {
    var d, r2 := req.Doc(), Result(false, [MilvusCreate], [], Some(Neo4jCreate));
    DeleteVectorsScript(w2.stores, d, vec);
    var _ := CompensateKeeps(f, w2, steps[0], s0, d, vec);
    var (w3, ok3) := CompensateStep(f, w2, steps[0]);
    var r3 := if ok3 then r2.(compensated := [MilvusCreate]) else r2;
    assert r2.compensated + [MilvusCreate] == [MilvusCreate];
    assert w3.stores == if ok3 then WithoutVectors(w2.stores, d) else w2.stores;
    assert CompensateDown(f, w2, steps, 1, r2) == CompensateDown(f, w3, steps, 0, r3) == (w3, r3);
  }
}
