/** The promises of the saga coordinator over single runs and over whole histories. */
module SagaHealing {
  import opened Stores
  import opened Saga
  import opened SagaRollback
  import opened SagaSafety
  import opened SagaOutcome
  import opened SagaOrphans

  function Start(s: Stores): World {
    World(s, 0, [s], [])
  }

  ghost predicate GraphNeverAhead(h: seq<Stores>) {
    forall n, d :: 0 <= n < |h| ==> GraphChunks(h[n], d) <= PgChunks(h[n], d)
  }

  ghost predicate VectorsNeverAhead(h: seq<Stores>) {
    forall n, d :: 0 <= n < |h| ==> VectorChunks(h[n], d) <= PgChunks(h[n], d)
  }

  lemma SagaRuns(f: Oracle, w: World, req: Request, s0: Origin, vec: bool)
    requires req.Valid() && Safe(w, s0, req.Doc(), vec)
    ensures var (w', o) := RunSaga(f, w, req);
      && Safe(w', s0, req.Doc(), vec && !Orphans(req, o))
      && (vec && Orphans(req, o) ==> !VectorsBehind(w'.stores))
      && (match req
          case CreateSaga(_, _, _, _) => if o.Raised? then w' == w else CreateEnd(w.stores, req, o.result, w'.stores)
          case DeleteSaga(d) => o.Returned? && DeleteEnd(w.stores, d, o.result, w'.stores)
          case UpdateSaga(_, _, _, _, _) => UpdateEnd(w.stores, req, o, w'.stores))
  {
    match req
    case CreateSaga(doc, chunks, given, encoder) =>
      var encoded := Encode(given, encoder, chunks);
      if encoded.Ready? {
        CreateRuns(f, w, req, encoded.embeddings, s0, vec);
      }
    case DeleteSaga(d) => DeleteRuns(f, w, d, s0, vec);
    case UpdateSaga(_, _, _, _, _) => UpdateRuns(f, w, req, s0, vec);
  }

  lemma BehindNow(s: Stores, d: DocUuid)
    requires WellFormed(s)
    ensures GraphBehind(s) ==> GraphChunks(s, d) <= PgChunks(s, d)
    ensures VectorsBehind(s) ==> VectorChunks(s, d) <= PgChunks(s, d)
  {
  }

  lemma AheadSomewhere(s: Stores) returns (d: DocUuid)
    requires !VectorsBehind(s)
    ensures !(VectorChunks(s, d) <= PgChunks(s, d))
  {
    var v :| v in s.vectors && v.chunkUuid !in PgChunks(s, v.docUuid);
    d := v.docUuid;
    assert v.chunkUuid in VectorChunks(s, d);
  }

  /** In every state of every create, update and delete, whatever calls fail, Neo4j holds no chunk of a
      document that PostgreSQL does not; and Milvus holds none either, if and only if the input is not an
      orphaning one: a create whose graph step fails, then the deletion of the vectors, but not the
      deletion of the document. */
  lemma DerivedStoresNeverAhead(f: Oracle, s: Stores, req: Request)
    requires req.Valid() && WellFormed(s) && GraphBehind(s) && VectorsBehind(s)
    ensures var (w, o) := RunSaga(f, Start(s), req);
      && GraphNeverAhead(w.history)
      && (VectorsNeverAhead(w.history) <==> !Orphaning(f, 0, s, req))
  {
    OrphansIff(f, Start(s), req);
    var d0 := req.Doc();
    var s0 := Origin(s, 0);
    assert Safe(Start(s), s0, d0, true);
    SagaRuns(f, Start(s), req, s0, true);
    var (w, o) := RunSaga(f, Start(s), req);
    var vec := !Orphans(req, o);
    forall n, d | 0 <= n < |w.history|
      ensures GraphChunks(w.history[n], d) <= PgChunks(w.history[n], d)
      ensures vec ==> VectorChunks(w.history[n], d) <= PgChunks(w.history[n], d)
    {
      assert Inv(w.history[n], s0, d0, vec);
      BehindNow(w.history[n], d);
    }
    if Orphans(req, o) {
      var d := AheadSomewhere(w.stores);
      assert !(VectorChunks(w.history[|w.history| - 1], d) <= PgChunks(w.history[|w.history| - 1], d));
    }
  }

  /** A create of a document id no store knows: success puts it in all three stores over the same
      chunk ids; a failure with every executed step compensated leaves nothing of it anywhere but the
      writes of the failing step, which are never reachable as chunks. */
  lemma CreateOfFreshDocument(f: Oracle, s: Stores, req: Request)
    requires req.CreateSaga? && req.Valid() && WellFormed(s) && GraphBehind(s)
    requires req.Doc() !in s.documents && VectorChunks(s, req.Doc()) == {}
    ensures var (w, o) := RunSaga(f, Start(s), req);
      && (o.Raised? ==> w.stores == s)
      && (o.Returned? && o.result.success ==> Consistent(w.stores, req.Doc(), Ids(req.chunks)))
      && (o.Returned? && !o.result.success && |o.result.compensated| == |o.result.executed| ==>
            && o.result.failed.Some?
            && match o.result.failed.value
               case PostgresCreate => w.stores == s || w.stores == WithDocument(s, req.doc)
               case MilvusCreate => w.stores == s
               case _ => w.stores == s || w.stores == WithNode(s, req.Doc())
                         || w.stores == WithNodes(s, req.Doc(), req.chunks))
  {
    assert Safe(Start(s), Origin(s, 0), req.Doc(), false);
    SagaRuns(f, Start(s), req, Origin(s, 0), false);
    assert WithoutVectors(s, req.Doc()) == s by {
      assert forall v :: v in s.vectors && v.docUuid == req.Doc() ==> v.chunkUuid in VectorChunks(s, req.Doc());
      assert WithoutVectors(s, req.Doc()).vectors == s.vectors;
    }
  }

  // ---------------------------------------------------------------- histories

  datatype Entry = Entry(oracle: Oracle, req: Request)

  function RunHistory(w: World, h: seq<Entry>): World
    decreases |h|
  {
    if h == [] then w else RunHistory(RunSaga(h[0].oracle, w, h[0].req).0, h[1..])
  }

  ghost predicate AllValid(h: seq<Entry>) {
    forall i :: 0 <= i < |h| ==> h[i].req.Valid()
  }

  /** Some create of the history orphaned vectors. */
  ghost predicate Orphaned(w: World, h: seq<Entry>)
    decreases |h|
  {
    h != [] &&
      (Orphaning(h[0].oracle, w.calls, w.stores, h[0].req) || Orphaned(RunSaga(h[0].oracle, w, h[0].req).0, h[1..]))
  }

  ghost predicate Sound(w: World) {
    Current(w) && WellFormed(w.stores) && GraphBehind(w.stores)
  }

  lemma SagaStep(f: Oracle, w: World, req: Request)
    requires req.Valid() && Sound(w)
    ensures var (w', o) := RunSaga(f, w, req);
      && Sound(w')
      && SameElsewhere(w.stores, w'.stores, req.Doc())
      && (VectorsBehind(w.stores) && !Orphaning(f, w.calls, w.stores, req) ==> VectorsBehind(w'.stores))
      && (match req
          case CreateSaga(_, _, _, _) => if o.Raised? then w' == w else CreateEnd(w.stores, req, o.result, w'.stores)
          case DeleteSaga(d) => o.Returned? && DeleteEnd(w.stores, d, o.result, w'.stores)
          case UpdateSaga(_, _, _, _, _) => UpdateEnd(w.stores, req, o, w'.stores))
  {
    var s0 := Origin(w.stores, |w.history|);
    assert Safe(w, s0, req.Doc(), false);
    SagaRuns(f, w, req, s0, false);
    OrphansIff(f, w, req);
    if VectorsBehind(w.stores) {
      assert Safe(w, s0, req.Doc(), true);
      SagaRuns(f, w, req, s0, true);
    }
  }

  lemma {:induction false} HistoryKeeps(w: World, h: seq<Entry>)
    requires AllValid(h) && Sound(w)
    ensures var w' := RunHistory(w, h);
      && Sound(w')
      && (VectorsBehind(w.stores) && !Orphaned(w, h) ==> VectorsBehind(w'.stores))
    decreases |h|
  {
    if h != [] {
      SagaStep(h[0].oracle, w, h[0].req);
      HistoryKeeps(RunSaga(h[0].oracle, w, h[0].req).0, h[1..]);
    }
  }

  lemma {:induction false} HistoryElsewhere(w: World, h: seq<Entry>, d: DocUuid)
    requires AllValid(h) && Sound(w)
    requires forall i :: 0 <= i < |h| ==> h[i].req.Doc() != d
    ensures SliceOf(RunHistory(w, h).stores, d) == SliceOf(w.stores, d)
    decreases |h|
  {
    if h != [] {
      SagaStep(h[0].oracle, w, h[0].req);
      HistoryElsewhere(RunSaga(h[0].oracle, w, h[0].req).0, h[1..], d);
    }
  }

  lemma SliceIds(s: Stores, s': Stores, d: DocUuid)
    requires SliceOf(s, d) == SliceOf(s', d)
    ensures PgChunks(s, d) == PgChunks(s', d)
    ensures VectorChunks(s, d) == VectorChunks(s', d)
    ensures GraphChunks(s, d) == GraphChunks(s', d)
    ensures d in s.documents <==> d in s'.documents
  {
    assert PgChunks(s, d) == set r | r in SliceOf(s, d).chunks :: r.chunkUuid;
    assert PgChunks(s', d) == set r | r in SliceOf(s', d).chunks :: r.chunkUuid;
    assert VectorChunks(s, d) == set v | v in SliceOf(s, d).vectors :: v.chunkUuid;
    assert VectorChunks(s', d) == set v | v in SliceOf(s', d).vectors :: v.chunkUuid;
  }

  /** Whatever failed before and whatever happens to other documents afterwards: a successful update
      makes the three stores agree on the chunks passed in, a successful delete empties all three, and
      a successful create makes PostgreSQL and Neo4j agree on the chunks passed in; Milvus agrees with
      them exactly when it held no other vector of the document before. */
  lemma {:induction false} SelfHealing(s0: Stores, before: seq<Entry>, last: Entry, after: seq<Entry>)
    requires AllValid(before) && last.req.Valid() && AllValid(after)
    requires WellFormed(s0) && GraphBehind(s0)
    requires forall i :: 0 <= i < |after| ==> after[i].req.Doc() != last.req.Doc()
    ensures
      var d := last.req.Doc();
      var w1 := RunHistory(Start(s0), before);
      var (w2, o) := RunSaga(last.oracle, w1, last.req);
      var s := RunHistory(w2, after).stores;
      o.Returned? && o.result.success ==>
        match last.req
        case UpdateSaga(_, _, chunks, _, _) => Consistent(s, d, Ids(chunks))
        case DeleteSaga(_) => Consistent(s, d, {}) && d !in s.documents
        case CreateSaga(_, chunks, _, _) =>
          && PgChunks(s, d) == GraphChunks(s, d) == Ids(chunks)
          && (Consistent(s, d, Ids(chunks)) <==> VectorChunks(w1.stores, d) <= Ids(chunks))
  {
    var d := last.req.Doc();
    HistoryKeeps(Start(s0), before);
    var w1 := RunHistory(Start(s0), before);
    SagaStep(last.oracle, w1, last.req);
    var (w2, o) := RunSaga(last.oracle, w1, last.req);
    HistoryElsewhere(w2, after, d);
    SliceIds(RunHistory(w2, after).stores, w2.stores, d);
    if last.req.DeleteSaga? {
      ClearedFacts(w1.stores, d);
    }
  }

  /** Without an orphaning create in the past, a successful create needs no condition. */
  lemma {:induction false} CreateHealsUnlessOrphaned(s0: Stores, before: seq<Entry>, last: Entry)
    requires AllValid(before) && last.req.CreateSaga? && last.req.Valid()
    requires WellFormed(s0) && GraphBehind(s0) && VectorsBehind(s0)
    requires !Orphaned(Start(s0), before)
    ensures var (w2, o) := RunSaga(last.oracle, RunHistory(Start(s0), before), last.req);
      o.Returned? && o.result.success ==> Consistent(w2.stores, last.req.Doc(), Ids(last.req.chunks))
  {
    HistoryKeeps(Start(s0), before);
    var w1 := RunHistory(Start(s0), before);
    SagaStep(last.oracle, w1, last.req);
    BehindNow(w1.stores, last.req.Doc());
    if last.req.Doc() !in w1.stores.documents {
      assert PgChunks(w1.stores, last.req.Doc()) == {};
    }
  }

  /** The condition on creates is needed: vectors orphaned by one create outlive the next, so a second
      create of the same document that succeeds is not consistent unless it reuses all chunk ids. */
  lemma OrphansOutliveCreates(f: Oracle, w: World, first: Request, g: Oracle, second: Request)
    requires first.Valid() && second.Valid() && Sound(w)
    requires first.CreateSaga? && second.CreateSaga? && first.Doc() == second.Doc()
    requires Orphaning(f, w.calls, w.stores, first)
    ensures var w1 := RunSaga(f, w, first).0;
      var (w2, o) := RunSaga(g, w1, second);
      o.Returned? && o.result.success && !(Ids(first.chunks) <= Ids(second.chunks)) ==>
        !Consistent(w2.stores, second.Doc(), Ids(second.chunks))
  {
    OrphansIff(f, w, first);
    SagaStep(f, w, first);
    SagaStep(g, RunSaga(f, w, first).0, second);
  }

  /** Such inputs exist: one chunk, the first graph call and the deletion of the vectors fail, nothing
      else does. */
  lemma OrphaningRunExists() returns (f: Oracle, s: Stores, req: Request)
    ensures req.Valid() && WellFormed(s) && GraphBehind(s) && VectorsBehind(s)
    ensures Orphaning(f, 0, s, req) && !VectorsNeverAhead(RunSaga(f, Start(s), req).0.history)
  {
    s := Stores(map[], {}, {}, {}, {}, {});
    f := n => n != 3 && n != 4;
    var doc, chunk := Document("d", "", ""), Chunk("c", "d", "");
    req := CreateSaga(doc, [chunk], Some(Embeddings([[1.0]], [[1.0]])), NoService);
    DerivedStoresNeverAhead(f, s, req);
  }
}
