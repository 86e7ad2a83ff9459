/** What a failed delete restores: the condition on the stores and the answers of the repositories,
    before the run. */
module SagaDeletes {
  import opened Stores
  import opened Saga
  import opened SagaOutcome
  import opened SagaOrphans
  import opened SagaEffects

  /** All six calls of a delete, the first being call n, succeed. */
  predicate AllCalls(f: Oracle, n: nat) {
    f(n) && f(n + 1) && f(n + 2) && f(n + 3) && f(n + 4) && f(n + 5)
  }

  /** The stores a delete leaves, by the calls that fail. */
  function Left(f: Oracle, n: nat, s: Stores, d: DocUuid): Stores {
    if !(f(n) && f(n + 1)) then s
    else if !f(n + 2) then WithoutGraph(s, d)
    else if AllCalls(f, n) then Apply(DeleteDocument(d), Cleared(s, d))
    else Cleared(s, d)
  }

  lemma {:induction false} GraphDeleted(f: Oracle, w: World, d: DocUuid)
    ensures var (w1, ok) := ExecuteStep(f, w, Neo4jDeleteStep(d));
      && (ok <==> f(w.calls) && f(w.calls + 1))
      && w1.stores == (if ok then WithoutGraph(w.stores, d) else w.stores)
      && (ok ==> w1.calls == w.calls + 2)
  {
    TwoCalls(f, w.(events := w.events + [Execute(Neo4jDelete)]), GetGraph(d), DeleteGraph(d));
  }

  lemma {:induction false} VectorsDeleted(f: Oracle, w: World, d: DocUuid)
    ensures var (w1, ok) := ExecuteStep(f, w, MilvusDeleteStep(d));
      && (ok <==> f(w.calls))
      && w1.stores == (if ok then WithoutVectors(w.stores, d) else w.stores)
      && w1.calls == w.calls + 1
  {
    OneCall(f, w.(events := w.events + [Execute(MilvusDelete)]), DeleteVectors(d));
  }

  lemma {:induction false} RowDeleted(f: Oracle, w: World, d: DocUuid)
    ensures var (w1, ok) := ExecuteStep(f, w, PostgresDeleteStep(d));
      && (ok <==> f(w.calls) && f(w.calls + 1) && f(w.calls + 2))
      && w1.stores == (if ok then Apply(DeleteDocument(d), w.stores) else w.stores)
  {
    ThreeCalls(f, w.(events := w.events + [Execute(PostgresDelete)]), GetDocument(d), GetChunks(d), DeleteDocument(d));
  }

  lemma {:induction false} DeleteLastStep(f: Oracle, w2: World, d: DocUuid, r2: Result)
    requires r2 == Result(true, [Neo4jDelete, MilvusDelete], [], None)
    ensures var (w', r) := ExecuteFrom(f, w2, DeleteSteps(d), 2, r2);
      var ok := f(w2.calls) && f(w2.calls + 1) && f(w2.calls + 2);
      && (r.success <==> ok)
      && w'.stores == (if ok then Apply(DeleteDocument(d), w2.stores) else w2.stores)
      && (!ok ==> |r.compensated| == |r.executed|)
  {
    var steps := DeleteSteps(d);
    RowDeleted(f, w2, d);
    var (w3, ok) := ExecuteStep(f, w2, steps[2]);
    if ok {
      var r3 := r2.(executed := r2.executed + [PostgresDelete]);
      assert ExecuteFrom(f, w2, steps, 2, r2) == ExecuteFrom(f, w3, steps, 3, r3) == (w3, r3);
    } else {
      var r3 := r2.(success := false, failed := Some(PostgresDelete));
      assert ExecuteFrom(f, w2, steps, 2, r2) == CompensateDown(f, w3, steps, 2, r3);
      NothingToCompensate(f, w3, steps, 2, r3);
    }
  }

  /** A delete succeeds exactly if its six calls do; what it leaves is decided by the first that fails; and
      a failed one reports every executed step as compensated. */
  lemma {:induction false} DeleteEndsBy(f: Oracle, w: World, d: DocUuid)
    ensures var (w', o) := RunDelete(f, w, d);
      && o.Returned?
      && (o.result.success <==> AllCalls(f, w.calls))
      && w'.stores == Left(f, w.calls, w.stores, d)
      && (var graph := f(w.calls) && f(w.calls + 1);
          Removed(w.stores, w'.stores, d, graph, graph && f(w.calls + 2), AllCalls(f, w.calls)))
      && (!o.result.success ==> |o.result.compensated| == |o.result.executed|)
  {
    var steps := DeleteSteps(d);
    DeletionsRemove(w.stores, d);
    ClearedRemoves(w.stores, d);
    GraphDeleted(f, w, d);
    var (w1, ok1) := ExecuteStep(f, w, steps[0]);
    if !ok1 {
      var r := STARTED.(success := false, failed := Some(Neo4jDelete));
      assert RunSteps(f, w, steps) == CompensateDown(f, w1, steps, 0, r) == (w1, r);
    } else {
      var r1 := Result(true, [Neo4jDelete], [], None);
      assert STARTED.executed + [Neo4jDelete] == r1.executed;
      assert RunSteps(f, w, steps) == ExecuteFrom(f, w1, steps, 1, r1);
      VectorsDeleted(f, w1, d);
      var (w2, ok2) := ExecuteStep(f, w1, steps[1]);
      if !ok2 {
        var r := r1.(success := false, failed := Some(MilvusDelete));
        assert ExecuteFrom(f, w1, steps, 1, r1) == CompensateDown(f, w2, steps, 1, r);
        NothingToCompensate(f, w2, steps, 1, r);
      } else {
        var r2 := Result(true, [Neo4jDelete, MilvusDelete], [], None);
        assert r1.executed + [MilvusDelete] == r2.executed;
        assert ExecuteFrom(f, w1, steps, 1, r1) == ExecuteFrom(f, w2, steps, 2, r2);
        DeleteLastStep(f, w2, d, r2);
      }
    }
  }

  lemma {:induction false} NothingToDelete(s: Stores, d: DocUuid)
    ensures WithoutGraph(s, d) == s <==> d !in s.docNodes
    ensures WithoutVectors(s, d) == s <==> VectorChunks(s, d) == {}
    ensures Cleared(s, d) == s <==> WithoutGraph(s, d) == s && WithoutVectors(s, d) == s
  {
    if VectorChunks(s, d) == {} {
      forall v | v in s.vectors ensures v.docUuid != d {
        assert v.docUuid == d ==> v.chunkUuid in VectorChunks(s, d);
      }
      assert WithoutVectors(s, d).vectors == s.vectors;
    } else {
      var c :| c in VectorChunks(s, d);
      var v :| v in s.vectors && v.docUuid == d && v.chunkUuid == c;
      assert v !in WithoutVectors(s, d).vectors;
    }
  }

  /** A failed delete leaves the stores as they were if and only if the graph was not deleted, or there was
      no graph to delete and the vectors were not deleted or there were none. */
  lemma {:induction false} DeleteRestoresIff(f: Oracle, w: World, d: DocUuid)
    requires !AllCalls(f, w.calls)
    ensures var (w', o) := RunDelete(f, w, d);
      && o.Returned? && !o.result.success && |o.result.compensated| == |o.result.executed|
      && (w'.stores == w.stores <==>
        || !(f(w.calls) && f(w.calls + 1))
        || (d !in w.stores.docNodes && (!f(w.calls + 2) || VectorChunks(w.stores, d) == {})))
  {
    DeleteEndsBy(f, w, d);
    NothingToDelete(w.stores, d);
  }

  /** For every document with a node in Neo4j there is a failing delete that reports full compensation and
      has lost the graph. */
  lemma {:induction false} DeleteLosesData(s: Stores, d: DocUuid) returns (f: Oracle)
    requires d in s.docNodes
    ensures var (w, o) := RunDelete(f, World(s, 0, [s], []), d);
      && o.Returned? && !o.result.success
      && o.result.executed == o.result.compensated == [Neo4jDelete]
      && w.stores == WithoutGraph(s, d) != s
  {
    f := n => n != 2;
    var w, steps := World(s, 0, [s], []), DeleteSteps(d);
    DeleteRestoresIff(f, w, d);
    DeleteEndsBy(f, w, d);
    GraphDeleted(f, w, d);
    var (w1, ok1) := ExecuteStep(f, w, steps[0]);
    var r1 := Result(true, [Neo4jDelete], [], None);
    assert STARTED.executed + [Neo4jDelete] == r1.executed;
    assert RunSteps(f, w, steps) == ExecuteFrom(f, w1, steps, 1, r1);
    VectorsDeleted(f, w1, d);
    var (w2, ok2) := ExecuteStep(f, w1, steps[1]);
    var r := r1.(success := false, failed := Some(MilvusDelete));
    assert ExecuteFrom(f, w1, steps, 1, r1) == CompensateDown(f, w2, steps, 1, r);
    NothingToCompensate(f, w2, steps, 1, r);
  }
}
