/** What the sagas leave is a state in which the redelivery of sync events is harmless. */
module SagaReplay {
  import opened Stores
  import opened SagaHealing
  import Sync
  import Saga
  import SyncReplay

  /** The setup of a sync service that starts on these stores: PostgreSQL answers with the chunk rows of
      each document in some order, Neo4j holds these nodes and edges, every text has an embedding. */
  ghost predicate Shows(s: Stores, setup: SyncReplay.Setup) {
    && (forall d, c :: c in Sync.ChunksOf(setup.pg, d) <==> c in s.chunkRows && c.docUuid == d)
    && (forall d :: d in setup.pg ==> DistinctIds(setup.pg[d]))
    && (forall d :: d in setup.pg ==> Sync.Enough(setup.pg[d], setup.enc(Saga.Texts(setup.pg[d]))))
    && setup.init.graph.titles.Keys == s.docNodes
    && setup.init.graph.nodes.Keys == s.chunkNodes
    && setup.init.graph.contains == s.contains
  }

  lemma {:induction false} ShownRow(s: Stores, setup: SyncReplay.Setup, c: ChunkUuid, d: DocUuid, i: int)
    requires Shows(s, setup) && SyncReplay.IsAt(setup.pg, c, d, i)
    ensures setup.pg[d][i] in s.chunkRows && setup.pg[d][i].docUuid == d && setup.pg[d][i].chunkUuid == c
  {
    assert setup.pg[d][i] in Sync.ChunksOf(setup.pg, d);
  }

  lemma {:induction false} ShownIsSane(s: Stores, setup: SyncReplay.Setup)
    requires WellFormed(s) && Shows(s, setup)
    ensures SyncReplay.Sane(setup)
  {
    forall c, d, i, d', i' | SyncReplay.IsAt(setup.pg, c, d, i) && SyncReplay.IsAt(setup.pg, c, d', i')
      ensures d == d' && i == i'
    {
      ShownRow(s, setup, c, d, i);
      ShownRow(s, setup, c, d', i');
    }
  }

  /** Stores with a graph nowhere ahead of PostgreSQL. */
  lemma {:induction false} ShownIsHarmless(s: Stores, setup: SyncReplay.Setup)
    requires WellFormed(s) && GraphBehind(s) && Shows(s, setup)
    ensures SyncReplay.Harmless(setup)
  {
    ShownIsSane(s, setup);
    forall e | e in setup.init.graph.contains ensures exists i :: SyncReplay.IsAt(setup.pg, e.chunk, e.doc, i) {
      assert e.chunk in PgChunks(s, e.doc);
      var r :| r in s.chunkRows && r.docUuid == e.doc && r.chunkUuid == e.chunk;
      assert r in Sync.ChunksOf(setup.pg, e.doc);
      var i :| 0 <= i < |setup.pg[e.doc]| && setup.pg[e.doc][i] == r;
      assert SyncReplay.IsAt(setup.pg, e.chunk, e.doc, i);
    }
    SyncReplay.BehindIsHarmless(setup);
  }

  /** After any history of sagas with any failures, handling sync events again is harmless. */
  lemma {:induction false} SagasLeaveReplayHarmless(s0: Stores, h: seq<Entry>, setup: SyncReplay.Setup)
    requires AllValid(h) && WellFormed(s0) && GraphBehind(s0)
    requires Shows(RunHistory(Start(s0), h).stores, setup)
    ensures SyncReplay.Harmless(setup)
  {
    HistoryKeeps(Start(s0), h);
    ShownIsHarmless(RunHistory(Start(s0), h).stores, setup);
  }
}
