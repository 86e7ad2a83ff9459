/** What every state of every saga run keeps, whatever calls fail: key constraints, a graph that never
    runs ahead of PostgreSQL, vectors that do not either (with one exception), and the slices of all
    other documents. */
module SagaSafety {
  import opened Stores
  import opened Saga
  import opened SagaRollback

  /** Where a run began: the stores, and how much history was already there. */
  datatype Origin = Origin(stores: Stores, seen: nat)

  /** The invariant of a run on document d that began in s0; `vec` says whether vectors are included. */
  ghost predicate Inv(s: Stores, s0: Origin, d: DocUuid, vec: bool) {
    WellFormed(s) && GraphBehind(s) && (vec ==> VectorsBehind(s)) && SameElsewhere(s0.stores, s, d)
  }

  ghost predicate AllInv(h: seq<Stores>, s0: Origin, d: DocUuid, vec: bool) {
    forall n :: s0.seen <= n < |h| ==> Inv(h[n], s0, d, vec)
  }

  /** The history ends in the current state. */
  ghost predicate Current(w: World) {
    w.history != [] && w.history[|w.history| - 1] == w.stores
  }

  /** The current state and every state of the run so far keep the invariant. */
  ghost predicate Safe(w: World, s0: Origin, d: DocUuid, vec: bool) {
    Current(w) && s0.seen <= |w.history| && Inv(w.stores, s0, d, vec) && AllInv(w.history, s0, d, vec)
  }

  /** A call that concerns document d only. */
  ghost predicate OpOn(op: Op, d: DocUuid) {
    match op
    case CreateDocument(doc) => doc.docUuid == d
    case CreateChunks(chunks) => forall c :: c in chunks ==> c.docUuid == d
    case UpdateDocument(d', _) => d' == d
    case DeleteChunks(d') => d' == d
    case DeleteDocument(d') => d' == d
    case InsertVectors(rows) => forall v :: v in rows ==> v.docUuid == d
    case DeleteVectors(d') => d' == d
    case CreateDocNode(d') => d' == d
    case CreateEdges(d', _) => d' == d
    case DeleteGraph(d') => d' == d
    case _ => true
  }

  /** When a call cannot let a derived store run ahead: rows go in only after their chunks, and chunks
      go out only after everything derived from them. */
  ghost predicate Guard(op: Op, s: Stores, d: DocUuid, vec: bool) {
    match op
    case DeleteChunks(_) => GraphChunks(s, d) == {} && (vec ==> VectorChunks(s, d) == {})
    case DeleteDocument(_) => GraphChunks(s, d) == {} && (vec ==> VectorChunks(s, d) == {})
    case InsertVectors(rows) => vec ==> forall v :: v in rows ==> v.chunkUuid in PgChunks(s, d)
    case CreateEdges(_, ids) => forall c :: c in ids ==> c in PgChunks(s, d)
    case _ => true
  }

  lemma OpElsewhere(op: Op, s: Stores, d: DocUuid, d': DocUuid)
    requires WellFormed(s) && GraphBehind(s) && OpOn(op, d) && d' != d
    ensures SliceOf(Apply(op, s), d') == SliceOf(s, d')
  {
  }

  lemma OpWellFormed(op: Op, s: Stores)
    requires WellFormed(s) && Accepts(op, s)
    ensures WellFormed(Apply(op, s))
  {
  }

  /** PostgreSQL keeps a chunk of another document, and any chunk when the call does not delete. */
  lemma OpPgChunks(op: Op, s: Stores, d: DocUuid, c: ChunkUuid, d': DocUuid)
    requires OpOn(op, d) && c in PgChunks(s, d')
    requires d' != d || !(op.DeleteChunks? || op.DeleteDocument?)
    ensures c in PgChunks(Apply(op, s), d')
  {
  }

  lemma OpDerived(op: Op, s: Stores, d: DocUuid, vec: bool)
    requires WellFormed(s) && GraphBehind(s) && (vec ==> VectorsBehind(s))
    requires OpOn(op, d) && Guard(op, s, d, vec)
    ensures GraphBehind(Apply(op, s))
    ensures vec ==> VectorsBehind(Apply(op, s))
  {
    var s' := Apply(op, s);
    var deletes := op.DeleteChunks? || op.DeleteDocument?;
    forall e | e in s'.contains ensures e.chunk in PgChunks(s', e.doc) {
      assert e.chunk in PgChunks(s, e.doc);
      assert deletes && e.doc == d ==> e.chunk in GraphChunks(s, d);
      OpPgChunks(op, s, d, e.chunk, e.doc);
    }
    if vec {
      forall v | v in s'.vectors ensures v.chunkUuid in PgChunks(s', v.docUuid) {
        assert v.chunkUuid in PgChunks(s, v.docUuid);
        assert deletes && v.docUuid == d ==> v.chunkUuid in VectorChunks(s, d);
        OpPgChunks(op, s, d, v.chunkUuid, v.docUuid);
      }
    }
  }

  lemma OpKeeps(op: Op, s: Stores, s0: Origin, d: DocUuid, vec: bool)
    requires Inv(s, s0, d, vec) && Accepts(op, s) && OpOn(op, d) && Guard(op, s, d, vec)
    ensures Inv(Apply(op, s), s0, d, vec)
  {
    OpWellFormed(op, s);
    OpDerived(op, s, d, vec);
    forall d' | d' != d ensures SliceOf(Apply(op, s), d') == SliceOf(s0.stores, d') {
      OpElsewhere(op, s, d, d');
    }
  }

  ghost predicate Guarded(ops: seq<Op>, s: Stores, d: DocUuid, vec: bool) {
    forall j :: 0 <= j < |ops| ==>
      OpOn(ops[j], d) && (Accepted(ops, j + 1, s) ==> Guard(ops[j], After(ops, j, s), d, vec))
  }

  lemma {:induction false} ScriptKeeps(f: Oracle, w: World, ops: seq<Op>, i: nat, s: Stores, s0: Origin,
      d: DocUuid, vec: bool)
    requires i <= |ops| && Accepted(ops, i, s) && w.stores == After(ops, i, s)
    requires Guarded(ops, s, d, vec) && Safe(w, s0, d, vec)
    ensures Safe(RunScript(f, w, ops, i).0, s0, d, vec)
    decreases |ops| - i
  {
    if i < |ops| {
      var (w1, ok) := Call(f, w, ops[i]);
      if ok {
        assert Accepted(ops, i + 1, s);
        OpKeeps(ops[i], w.stores, s0, d, vec);
        ScriptKeeps(f, w1, ops, i + 1, s, s0, d, vec);
      }
    }
  }

  lemma ExecuteKeeps(f: Oracle, w: World, step: Step, s0: Origin, d: DocUuid, vec: bool) returns (k: nat)
    requires Guarded(step.execute, w.stores, d, vec) && Safe(w, s0, d, vec)
    ensures Safe(ExecuteStep(f, w, step).0, s0, d, vec)
    ensures k <= |step.execute| && Accepted(step.execute, k, w.stores)
    ensures ExecuteStep(f, w, step).0.stores == After(step.execute, k, w.stores)
    ensures ExecuteStep(f, w, step).1 <==> k == |step.execute|
  {
    var w0 := w.(events := w.events + [Execute(step.name)]);
    ScriptKeeps(f, w0, step.execute, 0, w.stores, s0, d, vec);
    k := ScriptShape(f, w0, step.execute, 0, w.stores);
  }

  lemma CompensateKeeps(f: Oracle, w: World, step: Step, s0: Origin, d: DocUuid, vec: bool) returns (k: nat)
    requires Guarded(step.compensate, w.stores, d, vec) && Safe(w, s0, d, vec)
    ensures Safe(CompensateStep(f, w, step).0, s0, d, vec)
    ensures k <= |step.compensate| && Accepted(step.compensate, k, w.stores)
    ensures CompensateStep(f, w, step).0.stores == After(step.compensate, k, w.stores)
    ensures CompensateStep(f, w, step).1 <==> k == |step.compensate|
  {
    var w0 := w.(events := w.events + [Compensate(step.name)]);
    ScriptKeeps(f, w0, step.compensate, 0, w.stores, s0, d, vec);
    k := ScriptShape(f, w0, step.compensate, 0, w.stores);
  }
}
