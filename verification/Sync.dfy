/** The sync service: on document events it rebuilds the vectors and the graph of a document from
    PostgreSQL, and reports which stores it brought up to date. */
module Sync {
  import opened Stores
  import opened Saga

  datatype DocEvent =
    | Updated(doc: DocUuid, title: string, contentChanged: bool)
    | Deleted(doc: DocUuid)

  datatype Store = Milvus | Neo4j

  datatype Report =
    | SyncCompleted(doc: DocUuid, synced: seq<Store>)
    | SyncFailed(doc: DocUuid, failed: seq<Store>)

  /** What PostgreSQL answers: the chunks of every document, in order. */
  type Primary = map<DocUuid, seq<Chunk>>

  type Encoding = seq<string> -> Embeddings

  datatype ChunkNode = ChunkNode(doc: DocUuid, preview: string, index: nat)

  /** Vector rows are kept by chunk id; an insert adds a row, whether or not there is one. */
  type Vectors = map<ChunkUuid, seq<VectorRow>>

  datatype Graph = Graph(titles: map<DocUuid, string>, nodes: map<ChunkUuid, ChunkNode>, contains: set<Edge>)

  datatype Derived = Derived(vectors: Vectors, graph: Graph)

  /** Which calls succeed. */
  datatype Calls = Calls(
    getChunks: bool, encode: bool, deleteVectors: bool, insertVectors: bool,
    deleteGraph: bool, createNode: bool, createChunks: bool)

  function ChunksOf(pg: Primary, d: DocUuid): seq<Chunk> {
    if d in pg then pg[d] else []
  }

  /** The first 100 characters. */
  function Preview(text: string): (preview: string)
    ensures preview <= text && |preview| == if |text| < 100 then |text| else 100
  {
    if |text| <= 100 then text else text[..100]
  }

  // ---------------------------------------------------------------- the calls

  function RemoveVectors(v: Vectors, ids: seq<ChunkUuid>): Vectors {
    map c | c in v && c !in ids :: v[c]
  }

  function RowsOf(v: Vectors, c: ChunkUuid): seq<VectorRow> {
    if c in v then v[c] else []
  }

  function AddVectors(v: Vectors, rows: seq<VectorRow>): Vectors
    decreases |rows|
  {
    if rows == [] then v else
      var c := rows[|rows| - 1].chunkUuid;
      var v1 := AddVectors(v, rows[..|rows| - 1]);
      v1[c := RowsOf(v1, c) + [rows[|rows| - 1]]]
  }

  function Children(g: Graph, d: DocUuid): set<ChunkUuid> {
    set e | e in g.contains && e.doc == d :: e.chunk
  }

  /** The document node goes with the chunk nodes it contains and all their edges. */
  function RemoveGraph(g: Graph, d: DocUuid): Graph {
    if d !in g.titles then g else
      var children := Children(g, d);
      Graph(g.titles - {d}, g.nodes - children, set e | e in g.contains && e.doc != d && e.chunk !in children)
  }

  function MergeDocNode(g: Graph, d: DocUuid, title: string): Graph {
    g.(titles := g.titles[d := title])
  }

  function MergeNodes(nodes: map<ChunkUuid, ChunkNode>, d: DocUuid, chunks: seq<Chunk>): map<ChunkUuid, ChunkNode>
    decreases |chunks|
  {
    if chunks == [] then nodes else
      var n := |chunks| - 1;
      MergeNodes(nodes, d, chunks[..n])[chunks[n].chunkUuid := ChunkNode(d, Preview(chunks[n].text), n)]
  }

  function MergeChunkNodes(g: Graph, d: DocUuid, chunks: seq<Chunk>): Graph {
    g.(nodes := MergeNodes(g.nodes, d, chunks))
  }

  function Row(d: DocUuid, chunks: seq<Chunk>, e: Embeddings, i: nat): VectorRow
    requires i < |chunks| <= |e.dense| && |chunks| <= |e.sparse|
  {
    VectorRow(chunks[i].chunkUuid, d, e.dense[i], e.sparse[i], Preview(chunks[i].text))
  }

  function Rows(d: DocUuid, chunks: seq<Chunk>, e: Embeddings): (rows: seq<VectorRow>)
    requires |chunks| <= |e.dense| && |chunks| <= |e.sparse|
    ensures |rows| == |chunks|
    ensures forall i :: 0 <= i < |rows| ==> rows[i] == Row(d, chunks, e, i)
  {
    seq(|chunks|, i requires 0 <= i < |chunks| => Row(d, chunks, e, i))
  }

  predicate Enough(chunks: seq<Chunk>, e: Embeddings) {
    |chunks| <= |e.dense| && |chunks| <= |e.sparse|
  }

  // ---------------------------------------------------------------- what handling an event does

  function SyncVectors(v: Vectors, d: DocUuid, chunks: seq<Chunk>, e: Embeddings, calls: Calls): (Vectors, bool) {
    if !calls.deleteVectors then (v, false) else
      var v1 := RemoveVectors(v, ChunkIds(chunks));
      // fewer embeddings than chunks raise before the insert
      if Enough(chunks, e) && calls.insertVectors then (AddVectors(v1, Rows(d, chunks, e)), true) else (v1, false)
  }

  function SyncGraph(g: Graph, d: DocUuid, title: string, chunks: seq<Chunk>, calls: Calls): (Graph, bool) {
    if !calls.deleteGraph then (g, false) else
      var g1 := RemoveGraph(g, d);
      if !calls.createNode then (g1, false) else
        var g2 := MergeDocNode(g1, d, title);
        if !calls.createChunks then (g2, false) else (MergeChunkNodes(g2, d, chunks), true)
  }

  function Summary(d: DocUuid, milvusOk: bool, neo4jOk: bool): Report {
    if milvusOk && neo4jOk then SyncCompleted(d, [Milvus, Neo4j])
    else SyncFailed(d, (if milvusOk then [] else [Milvus]) + (if neo4jOk then [] else [Neo4j]))
  }

  function AfterUpdated(pg: Primary, enc: Encoding, s: Derived, e: DocEvent, calls: Calls): (Derived, Option<Report>)
    requires e.Updated?
  {
    var d, chunks := e.doc, ChunksOf(pg, e.doc);
    if !e.contentChanged then (s, Some(SyncCompleted(d, [])))
    else if !calls.getChunks then (s, Some(SyncFailed(d, [Milvus, Neo4j])))
    else if chunks == [] then (s, None)
    else if !calls.encode then (s, Some(SyncFailed(d, [Milvus, Neo4j])))
    else
      var (v, milvusOk) := SyncVectors(s.vectors, d, chunks, enc(Texts(chunks)), calls);
      var (g, neo4jOk) := SyncGraph(s.graph, d, e.title, chunks, calls);
      (Derived(v, g), Some(Summary(d, milvusOk, neo4jOk)))
  }

  function AfterDeleted(pg: Primary, s: Derived, e: DocEvent, calls: Calls): (Derived, Option<Report>)
    requires e.Deleted?
  {
    var d, chunks := e.doc, ChunksOf(pg, e.doc);
    if !calls.getChunks then (s, Some(SyncFailed(d, [Milvus, Neo4j])))
    else
      // no call is made for an empty list
      var milvusOk := chunks == [] || calls.deleteVectors;
      var v := if chunks != [] && calls.deleteVectors then RemoveVectors(s.vectors, ChunkIds(chunks)) else s.vectors;
      var g := if calls.deleteGraph then RemoveGraph(s.graph, d) else s.graph;
      (Derived(v, g), Some(Summary(d, milvusOk, calls.deleteGraph)))
  }

  function AfterEvent(pg: Primary, enc: Encoding, s: Derived, e: DocEvent, calls: Calls): (Derived, Option<Report>) {
    if e.Updated? then AfterUpdated(pg, enc, s, e, calls) else AfterDeleted(pg, s, e, calls)
  }

  class SyncService {
    const pg: Primary
    const enc: Encoding
    var vectors: Vectors
    var graph: Graph
    var reports: seq<Report>

    function Now(): Derived
      reads this
    {
      Derived(vectors, graph)
    }

    constructor (pg: Primary, enc: Encoding, s: Derived)
      ensures Now() == s && reports == [] && this.pg == pg && this.enc == enc
    {
      this.pg, this.enc := pg, enc;
      vectors, graph, reports := s.vectors, s.graph, [];
    }

    method HandleDocumentUpdated(e: DocEvent, calls: Calls)
      requires e.Updated?
      modifies this
      ensures Now() == AfterUpdated(pg, enc, old(Now()), e, calls).0
      ensures var report := AfterUpdated(pg, enc, old(Now()), e, calls).1;
        reports == old(reports) + if report.Some? then [report.value] else []
    {
      if !e.contentChanged {
        reports := reports + [SyncCompleted(e.doc, [])];
        return;
      }
      if !calls.getChunks {
        reports := reports + [SyncFailed(e.doc, [Milvus, Neo4j])];
        return;
      }
      var chunks := ChunksOf(pg, e.doc);
      if chunks == [] {
        return;
      }
      if !calls.encode {
        reports := reports + [SyncFailed(e.doc, [Milvus, Neo4j])];
        return;
      }
      var embeddings := enc(Texts(chunks));
      var synced: seq<Store>, failed: seq<Store> := [], [];
      var ok := UpdateVectors(e.doc, chunks, embeddings, calls);
      if ok {
        synced := synced + [Milvus];
      } else {
        failed := failed + [Milvus];
      }
      ok := UpdateGraph(e.doc, e.title, chunks, calls);
      if ok {
        synced := synced + [Neo4j];
      } else {
        failed := failed + [Neo4j];
      }
      var report := if failed != [] then SyncFailed(e.doc, failed) else SyncCompleted(e.doc, synced);
      assert report == Summary(e.doc, Milvus in synced, Neo4j in synced);
      reports := reports + [report];
    }

    method UpdateVectors(d: DocUuid, chunks: seq<Chunk>, e: Embeddings, calls: Calls) returns (ok: bool)
      modifies this`vectors
      ensures (vectors, ok) == SyncVectors(old(vectors), d, chunks, e, calls)
    {
      if !calls.deleteVectors {
        return false;
      }
      vectors := RemoveVectors(vectors, ChunkIds(chunks));
      var rows: seq<VectorRow> := [];
      for i := 0 to |chunks|
        invariant |rows| == i && i <= |e.dense| && i <= |e.sparse|
        invariant forall j :: 0 <= j < i ==>
          rows[j] == VectorRow(chunks[j].chunkUuid, d, e.dense[j], e.sparse[j], Preview(chunks[j].text))
      {
        if i >= |e.dense| || i >= |e.sparse| {
          return false;
        }
        rows := rows + [VectorRow(chunks[i].chunkUuid, d, e.dense[i], e.sparse[i], Preview(chunks[i].text))];
      }
      assert rows == Rows(d, chunks, e);
      if !calls.insertVectors {
        return false;
      }
      vectors := AddVectors(vectors, rows);
      return true;
    }

    method UpdateGraph(d: DocUuid, title: string, chunks: seq<Chunk>, calls: Calls) returns (ok: bool)
      modifies this`graph
      ensures (graph, ok) == SyncGraph(old(graph), d, title, chunks, calls)
    {
      if !calls.deleteGraph {
        return false;
      }
      graph := RemoveGraph(graph, d);
      if !calls.createNode {
        return false;
      }
      graph := MergeDocNode(graph, d, title);
      if !calls.createChunks {
        return false;
      }
      graph := MergeChunkNodes(graph, d, chunks);
      return true;
    }

    method HandleDocumentDeleted(e: DocEvent, calls: Calls)
      requires e.Deleted?
      modifies this
      ensures Now() == AfterDeleted(pg, old(Now()), e, calls).0
      ensures var report := AfterDeleted(pg, old(Now()), e, calls).1;
        report.Some? && reports == old(reports) + [report.value]
    {
      if !calls.getChunks {
        reports := reports + [SyncFailed(e.doc, [Milvus, Neo4j])];
        return;
      }
      var ids := ChunkIds(ChunksOf(pg, e.doc));
      var synced: seq<Store>, failed: seq<Store> := [], [];
      if ids == [] || calls.deleteVectors {
        if ids != [] {
          vectors := RemoveVectors(vectors, ids);
        }
        synced := synced + [Milvus];
      } else {
        failed := failed + [Milvus];
      }
      if calls.deleteGraph {
        graph := RemoveGraph(graph, e.doc);
        synced := synced + [Neo4j];
      } else {
        failed := failed + [Neo4j];
      }
      var report := if failed != [] then SyncFailed(e.doc, failed) else SyncCompleted(e.doc, synced);
      assert report == Summary(e.doc, Milvus in synced, Neo4j in synced);
      reports := reports + [report];
    }
  }

  // ---------------------------------------------------------------- what reports are worth

  lemma {:induction false} AddedRows(v: Vectors, rows: seq<VectorRow>)
    requires forall i, j :: 0 <= i < j < |rows| ==> rows[i].chunkUuid != rows[j].chunkUuid
    requires forall i :: 0 <= i < |rows| ==> rows[i].chunkUuid !in v
    ensures forall i :: 0 <= i < |rows| ==>
      rows[i].chunkUuid in AddVectors(v, rows) && AddVectors(v, rows)[rows[i].chunkUuid] == [rows[i]]
    ensures forall c :: (forall i :: 0 <= i < |rows| ==> rows[i].chunkUuid != c) ==>
      (c in AddVectors(v, rows) <==> c in v) && (c in v ==> AddVectors(v, rows)[c] == v[c])
    decreases |rows|
  {
    if rows != [] {
      var n := |rows| - 1;
      AddedRows(v, rows[..n]);
      assert forall i :: 0 <= i < n ==> rows[..n][i] == rows[i];
      assert rows[n].chunkUuid !in AddVectors(v, rows[..n]);
    }
  }

  lemma {:induction false} OtherNodes(nodes: map<ChunkUuid, ChunkNode>, d: DocUuid, chunks: seq<Chunk>, c: ChunkUuid)
    requires forall i :: 0 <= i < |chunks| ==> chunks[i].chunkUuid != c
    ensures var nodes' := MergeNodes(nodes, d, chunks);
      (c in nodes' <==> c in nodes) && (c in nodes ==> nodes'[c] == nodes[c])
    decreases |chunks|
  {
    if chunks != [] {
      OtherNodes(nodes, d, chunks[..|chunks| - 1], c);
    }
  }

  lemma {:induction false} MergedNodes(nodes: map<ChunkUuid, ChunkNode>, d: DocUuid, chunks: seq<Chunk>, i: nat)
    requires DistinctIds(chunks) && i < |chunks|
    ensures chunks[i].chunkUuid in MergeNodes(nodes, d, chunks)
    ensures MergeNodes(nodes, d, chunks)[chunks[i].chunkUuid] == ChunkNode(d, Preview(chunks[i].text), i)
    decreases |chunks|
  {
    var n := |chunks| - 1;
    if i < n {
      assert chunks[..n][i] == chunks[i] && chunks[i].chunkUuid != chunks[n].chunkUuid;
      MergedNodes(nodes, d, chunks[..n], i);
    }
  }

  /** Milvus holds exactly one row for every chunk PostgreSQL has of the document. */
  ghost predicate VectorsCurrent(v: Vectors, d: DocUuid, chunks: seq<Chunk>, e: Embeddings) {
    Enough(chunks, e) && forall i :: 0 <= i < |chunks| ==>
      chunks[i].chunkUuid in v && v[chunks[i].chunkUuid] == [Row(d, chunks, e, i)]
  }

  /** A row of Milvus that belongs to chunk i: its id, document and embeddings, and the first 100 characters
      of its text. */
  predicate IsRowOf(row: VectorRow, d: DocUuid, chunks: seq<Chunk>, e: Embeddings, i: int) {
    && 0 <= i < |chunks| && i < |e.dense| && i < |e.sparse|
    && row.chunkUuid == chunks[i].chunkUuid && row.docUuid == d
    && row.dense == e.dense[i] && row.sparse == e.sparse[i]
    && row.text <= chunks[i].text && |row.text| == if |chunks[i].text| < 100 then |chunks[i].text| else 100
  }

  /** A node of Neo4j that belongs to chunk i: its document, its place, and the first 100 characters of its
      text. */
  predicate IsNodeOf(node: ChunkNode, d: DocUuid, chunks: seq<Chunk>, i: int) {
    && 0 <= i < |chunks| && node.doc == d && node.index == i
    && node.preview <= chunks[i].text && |node.preview| == if |chunks[i].text| < 100 then |chunks[i].text| else 100
  }

  /** What current stores hold of a chunk. */
  lemma {:induction false} CurrentHolds(
    s: Derived, d: DocUuid, title: string, chunks: seq<Chunk>, e: Embeddings, i: nat)
    requires i < |chunks|
    ensures var c := chunks[i].chunkUuid;
      && (VectorsCurrent(s.vectors, d, chunks, e) ==>
        c in s.vectors && |s.vectors[c]| == 1 && IsRowOf(s.vectors[c][0], d, chunks, e, i))
      && (NodesCurrent(s.graph, d, title, chunks) ==>
        c in s.graph.nodes && IsNodeOf(s.graph.nodes[c], d, chunks, i))
  {
  }

  /** Neo4j holds the document node and a node for every chunk. */
  ghost predicate NodesCurrent(g: Graph, d: DocUuid, title: string, chunks: seq<Chunk>) {
    && d in g.titles && g.titles[d] == title
    && forall i :: 0 <= i < |chunks| ==>
      chunks[i].chunkUuid in g.nodes && g.nodes[chunks[i].chunkUuid] == ChunkNode(d, Preview(chunks[i].text), i)
  }

  lemma {:induction false} VectorsSynced(v: Vectors, d: DocUuid, chunks: seq<Chunk>, e: Embeddings, calls: Calls)
    requires DistinctIds(chunks)
    ensures SyncVectors(v, d, chunks, e, calls).1 <==> calls.deleteVectors && Enough(chunks, e) && calls.insertVectors
    ensures SyncVectors(v, d, chunks, e, calls).1 ==>
      VectorsCurrent(SyncVectors(v, d, chunks, e, calls).0, d, chunks, e)
    ensures forall c :: c !in ChunkIds(chunks) ==>
      var v' := SyncVectors(v, d, chunks, e, calls).0;
      (c in v' <==> c in v) && (c in v ==> v'[c] == v[c])
  {
    if calls.deleteVectors && Enough(chunks, e) && calls.insertVectors {
      var rows := Rows(d, chunks, e);
      forall i | 0 <= i < |rows| ensures rows[i].chunkUuid in ChunkIds(chunks) {
        assert ChunkIds(chunks)[i] == rows[i].chunkUuid;
      }
      var v' := AddVectors(RemoveVectors(v, ChunkIds(chunks)), rows);
      AddedRows(RemoveVectors(v, ChunkIds(chunks)), rows);
      forall i | 0 <= i < |chunks|
        ensures chunks[i].chunkUuid in v' && v'[chunks[i].chunkUuid] == [Row(d, chunks, e, i)]
      {
        assert rows[i].chunkUuid == chunks[i].chunkUuid;
      }
    }
  }

  lemma {:induction false} GraphSynced(g: Graph, d: DocUuid, title: string, chunks: seq<Chunk>, calls: Calls)
    requires DistinctIds(chunks)
    ensures SyncGraph(g, d, title, chunks, calls).1 <==> calls.deleteGraph && calls.createNode && calls.createChunks
    ensures SyncGraph(g, d, title, chunks, calls).1 ==>
      NodesCurrent(SyncGraph(g, d, title, chunks, calls).0, d, title, chunks)
  {
    forall i | 0 <= i < |chunks|
      ensures var nodes := MergeNodes(RemoveGraph(g, d).nodes, d, chunks);
        chunks[i].chunkUuid in nodes && nodes[chunks[i].chunkUuid] == ChunkNode(d, Preview(chunks[i].text), i)
    {
      MergedNodes(RemoveGraph(g, d).nodes, d, chunks, i);
    }
  }

  /** The stores whose calls failed while a content-changing update of d was handled. */
  function FailedStores(calls: Calls, chunks: seq<Chunk>, e: Embeddings): seq<Store> {
    if !calls.getChunks || !calls.encode then [Milvus, Neo4j] else
      (if calls.deleteVectors && Enough(chunks, e) && calls.insertVectors then [] else [Milvus])
      + (if calls.deleteGraph && calls.createNode && calls.createChunks then [] else [Neo4j])
  }

  /** A content-changing update of a document that has chunks is reported completed exactly when no call
      failed, and then both stores are current; otherwise the report names exactly the stores whose calls
      failed.  Each store ends as if the other's calls had all succeeded. */
  lemma {:induction false} UpdateReportsAreSound(pg: Primary, enc: Encoding, s: Derived, e: DocEvent, calls: Calls)
    requires e.Updated? && e.contentChanged && ChunksOf(pg, e.doc) != [] && DistinctIds(ChunksOf(pg, e.doc))
    ensures var chunks := ChunksOf(pg, e.doc);
      var emb := enc(Texts(chunks));
      var (s', report) := AfterUpdated(pg, enc, s, e, calls);
      var failed := FailedStores(calls, chunks, emb);
      && report == Some(if failed == [] then SyncCompleted(e.doc, [Milvus, Neo4j]) else SyncFailed(e.doc, failed))
      && (Milvus !in failed ==> VectorsCurrent(s'.vectors, e.doc, chunks, emb))
      && (Neo4j !in failed ==> NodesCurrent(s'.graph, e.doc, e.title, chunks))
  {
    var chunks := ChunksOf(pg, e.doc);
    VectorsSynced(s.vectors, e.doc, chunks, enc(Texts(chunks)), calls);
    GraphSynced(s.graph, e.doc, e.title, chunks, calls);
  }

  /** The document node and the chunk nodes that hung on it are gone with all their edges; all other nodes
      and edges are as before. */
  ghost predicate GraphRemoved(g: Graph, g': Graph, d: DocUuid) {
    if d !in g.titles then g' == g else
      && (forall x :: x in g'.titles <==> x in g.titles && x != d)
      && (forall x :: x in g'.titles ==> g'.titles[x] == g.titles[x])
      && (forall c :: c in g'.nodes <==> c in g.nodes && Edge(d, c) !in g.contains)
      && (forall c :: c in g'.nodes ==> g'.nodes[c] == g.nodes[c])
      && forall e :: e in g'.contains <==> e in g.contains && e.doc != d && Edge(d, e.chunk) !in g.contains
  }

  /** The vectors with these chunk ids are gone, all others are as before. */
  ghost predicate VectorsRemoved(v: Vectors, v': Vectors, ids: seq<ChunkUuid>) {
    && (forall c :: c in v' <==> c in v && c !in ids)
    && forall c :: c in v' ==> v'[c] == v[c]
  }

  lemma {:induction false} RemovalsRemove(v: Vectors, ids: seq<ChunkUuid>, g: Graph, d: DocUuid)
    ensures VectorsRemoved(v, RemoveVectors(v, ids), ids)
    ensures GraphRemoved(g, RemoveGraph(g, d), d)
  {
    forall c ensures c in Children(g, d) <==> Edge(d, c) in g.contains {
      assert Edge(d, c).chunk == c;
    }
  }

  /** An update that changes no content is reported completed without stores; one that finds no chunks is
      not reported; one whose chunks or embeddings cannot be had is reported failed for both stores.  None
      of them touches a store. */
  lemma {:induction false} UpdateWithoutWork(pg: Primary, enc: Encoding, s: Derived, e: DocEvent, calls: Calls)
    requires e.Updated?
    ensures var (s', report) := AfterUpdated(pg, enc, s, e, calls);
      var listed := calls.getChunks && ChunksOf(pg, e.doc) != [];
      && (!e.contentChanged ==> s' == s && report == Some(SyncCompleted(e.doc, [])))
      && (e.contentChanged && calls.getChunks && !listed ==> s' == s && report == None)
      && (e.contentChanged && (!calls.getChunks || (listed && !calls.encode)) ==>
        s' == s && report == Some(SyncFailed(e.doc, [Milvus, Neo4j])))
      && (e.contentChanged && listed && calls.encode ==>
        report.Some? && report.value != SyncCompleted(e.doc, []))
  {
  }

  /** What a store is left with when its part of an update fails, by the call that failed. */
  lemma {:induction false} FailedUpdateLeaves(pg: Primary, enc: Encoding, s: Derived, e: DocEvent, calls: Calls)
    requires e.Updated? && e.contentChanged && calls.getChunks && calls.encode && ChunksOf(pg, e.doc) != []
    ensures var chunks := ChunksOf(pg, e.doc);
      var s' := AfterUpdated(pg, enc, s, e, calls).0;
      && (!calls.deleteVectors ==> s'.vectors == s.vectors)
      && (calls.deleteVectors && !(Enough(chunks, enc(Texts(chunks))) && calls.insertVectors) ==>
        VectorsRemoved(s.vectors, s'.vectors, ChunkIds(chunks)))
      && (!calls.deleteGraph ==> s'.graph == s.graph)
      && (calls.deleteGraph && !calls.createNode ==> GraphRemoved(s.graph, s'.graph, e.doc))
      && (calls.deleteGraph && calls.createNode && !calls.createChunks ==>
        && e.doc in s'.graph.titles && s'.graph.titles[e.doc] == e.title
        && GraphRemoved(s.graph, s'.graph.(titles := RemoveGraph(s.graph, e.doc).titles), e.doc))
  {
    RemovalsRemove(s.vectors, ChunkIds(ChunksOf(pg, e.doc)), s.graph, e.doc);
  }

  /** A delete is reported completed exactly when no call of it failed; otherwise the report names exactly
      the stores whose calls failed, and both if the chunks could not be had.  A store that is not named
      has lost the document node with its chunk nodes, or the vectors of the listed chunks, and nothing
      else; a store that is named is as before. */
  lemma {:induction false} DeleteReportsAreSound(pg: Primary, s: Derived, e: DocEvent, calls: Calls)
    requires e.Deleted?
    ensures var chunks := ChunksOf(pg, e.doc);
      var (s', report) := AfterDeleted(pg, s, e, calls);
      var milvusFailed := !calls.getChunks || (chunks != [] && !calls.deleteVectors);
      var neo4jFailed := !calls.getChunks || !calls.deleteGraph;
      && report == Some(
        if milvusFailed && neo4jFailed then SyncFailed(e.doc, [Milvus, Neo4j])
        else if milvusFailed then SyncFailed(e.doc, [Milvus])
        else if neo4jFailed then SyncFailed(e.doc, [Neo4j])
        else SyncCompleted(e.doc, [Milvus, Neo4j]))
      && (if milvusFailed then s'.vectors == s.vectors else VectorsRemoved(s.vectors, s'.vectors, ChunkIds(chunks)))
      && (if neo4jFailed then s'.graph == s.graph else GraphRemoved(s.graph, s'.graph, e.doc))
  {
    assert [Milvus] + [] == [Milvus] && [] + [Neo4j] == [Neo4j] && [Milvus] + [Neo4j] == [Milvus, Neo4j];
    RemovalsRemove(s.vectors, ChunkIds(ChunksOf(pg, e.doc)), s.graph, e.doc);
  }

  /** A failure in one store changes nothing in what happens to the other. */
  lemma {:induction false} StoresAreIndependent(pg: Primary, enc: Encoding, s: Derived, e: DocEvent, calls: Calls)
    requires calls.getChunks && calls.encode
    ensures var s' := AfterEvent(pg, enc, s, e, calls).0;
      var milvusDown := calls.(deleteVectors := false, insertVectors := false);
      var neo4jDown := calls.(deleteGraph := false, createNode := false, createChunks := false);
      && s'.graph == AfterEvent(pg, enc, s, e, milvusDown).0.graph
      && s'.vectors == AfterEvent(pg, enc, s, e, neo4jDown).0.vectors
      && AfterEvent(pg, enc, s, e, neo4jDown).0.graph == s.graph
  {
  }

  ghost predicate EdgesJoinNodes(g: Graph) {
    forall e :: e in g.contains ==> e.doc in g.titles
  }

  /** A completed update leaves the document without CONTAINS edges: the handler removes them with the
      old graph and creates nodes only, so no chunk can be reached from the document afterwards. */
  lemma {:induction false} CompletedUpdateHasNoEdges(pg: Primary, enc: Encoding, s: Derived, e: DocEvent, calls: Calls)
    requires e.Updated? && EdgesJoinNodes(s.graph) && DistinctIds(ChunksOf(pg, e.doc))
    requires AfterUpdated(pg, enc, s, e, calls).1 == Some(SyncCompleted(e.doc, [Milvus, Neo4j]))
    ensures Children(AfterUpdated(pg, enc, s, e, calls).0.graph, e.doc) == {}
  {
  }

  ghost predicate HasVectors(v: Vectors, d: DocUuid) {
    exists c, i :: c in v && 0 <= i < |v[c]| && v[c][i].docUuid == d
  }

  ghost predicate HasNodes(g: Graph, d: DocUuid) {
    exists c :: c in g.nodes && g.nodes[c].doc == d
  }

  /** Every vector of d belongs to a chunk that PostgreSQL still lists. */
  ghost predicate VectorsListed(pg: Primary, v: Vectors, d: DocUuid) {
    forall c, i :: c in v && 0 <= i < |v[c]| && v[c][i].docUuid == d ==> c in ChunkIds(ChunksOf(pg, d))
  }

  /** Every chunk node of d hangs on the node of d. */
  ghost predicate NodesHang(g: Graph, d: DocUuid) {
    forall c :: c in g.nodes && g.nodes[c].doc == d ==> d in g.titles && Edge(d, c) in g.contains
  }

  lemma {:induction false} VectorsGoneIff(pg: Primary, v: Vectors, d: DocUuid)
    ensures !HasVectors(RemoveVectors(v, ChunkIds(ChunksOf(pg, d))), d) <==> VectorsListed(pg, v, d)
  {
    var ids := ChunkIds(ChunksOf(pg, d));
    forall c, i | c in v && 0 <= i < |v[c]| && v[c][i].docUuid == d && c !in ids
      ensures HasVectors(RemoveVectors(v, ids), d)
    {
      assert RemoveVectors(v, ids)[c][i].docUuid == d;
    }
  }

  lemma {:induction false} NodesGoneIff(g: Graph, d: DocUuid)
    ensures !HasNodes(RemoveGraph(g, d), d) <==> NodesHang(g, d)
  {
    var g' := RemoveGraph(g, d);
    forall c | c in g.nodes && g.nodes[c].doc == d && !(d in g.titles && Edge(d, c) in g.contains)
      ensures HasNodes(g', d)
    {
      assert c in g'.nodes && g'.nodes[c].doc == d;
    }
    forall c | c in g.nodes && d in g.titles && Edge(d, c) in g.contains ensures c !in g'.nodes {
      assert Edge(d, c).chunk in Children(g, d);
    }
  }

  /** A delete is reported completed without a look at what is left.  The report is true of Milvus if and
      only if every vector of the document belonged to a chunk that PostgreSQL still listed, and of Neo4j
      if and only if every chunk node of the document hung on the document's node. */
  lemma {:induction false} CompletedDeleteIsTrueIff(pg: Primary, s: Derived, e: DocEvent, calls: Calls)
    requires e.Deleted? && AfterDeleted(pg, s, e, calls).1 == Some(SyncCompleted(e.doc, [Milvus, Neo4j]))
    ensures var s' := AfterDeleted(pg, s, e, calls).0;
      && e.doc !in s'.graph.titles
      && (!HasVectors(s'.vectors, e.doc) <==> VectorsListed(pg, s.vectors, e.doc))
      && (!HasNodes(s'.graph, e.doc) <==> NodesHang(s.graph, e.doc))
      && (!HasVectors(s'.vectors, e.doc) && !HasNodes(s'.graph, e.doc) <==>
        VectorsListed(pg, s.vectors, e.doc) && NodesHang(s.graph, e.doc))
  {
    VectorsGoneIff(pg, s.vectors, e.doc);
    NodesGoneIff(s.graph, e.doc);
    assert RemoveVectors(s.vectors, []) == s.vectors;
  }

  /** After a completed update of a document a completed delete of it leaves every one of its chunk nodes
      in Neo4j, in particular when no call fails at all. */
  lemma {:induction false} DeleteAfterUpdateLeavesNodes(
    pg: Primary, enc: Encoding, s: Derived, update: DocEvent, calls: Calls, delete: DocEvent, calls': Calls)
    requires update.Updated? && delete == Deleted(update.doc)
    requires EdgesJoinNodes(s.graph) && DistinctIds(ChunksOf(pg, update.doc))
    requires AfterUpdated(pg, enc, s, update, calls).1 == Some(SyncCompleted(update.doc, [Milvus, Neo4j]))
    ensures var d, chunks := update.doc, ChunksOf(pg, update.doc);
      var s1 := AfterUpdated(pg, enc, s, update, calls).0;
      var s2 := AfterDeleted(pg, s1, delete, calls').0;
      && chunks != []
      && forall i :: 0 <= i < |chunks| ==>
        && chunks[i].chunkUuid in s2.graph.nodes
        && s2.graph.nodes[chunks[i].chunkUuid] == ChunkNode(d, Preview(chunks[i].text), i)
  {
    var chunks := ChunksOf(pg, update.doc);
    UpdateReportsAreSound(pg, enc, s, update, calls);
    CompletedUpdateHasNoEdges(pg, enc, s, update, calls);
    var failed := FailedStores(calls, chunks, enc(Texts(chunks)));
    assert failed == [];
  }

  /** Every chunk node of d that is not of a listed chunk hangs on the node of d. */
  ghost predicate OtherNodesHang(g: Graph, d: DocUuid, ids: seq<ChunkUuid>) {
    forall c :: c in g.nodes && g.nodes[c].doc == d && c !in ids ==> d in g.titles && Edge(d, c) in g.contains
  }

  ghost predicate NodesListed(g: Graph, d: DocUuid, ids: seq<ChunkUuid>) {
    forall c :: c in g.nodes && g.nodes[c].doc == d ==> c in ids
  }

  lemma {:induction false} OtherVectorsKept(v: Vectors, v': Vectors, pg: Primary, d: DocUuid)
    requires forall c :: c !in ChunkIds(ChunksOf(pg, d)) ==> (c in v' <==> c in v) && (c in v ==> v'[c] == v[c])
    ensures VectorsListed(pg, v', d) <==> VectorsListed(pg, v, d)
  {
    var ids := ChunkIds(ChunksOf(pg, d));
    forall c, i | c in v && 0 <= i < |v[c]| && v[c][i].docUuid == d && c !in ids
      ensures !VectorsListed(pg, v', d)
    {
      assert v'[c][i].docUuid == d;
    }
    forall c, i | c in v' && 0 <= i < |v'[c]| && v'[c][i].docUuid == d && c !in ids
      ensures !VectorsListed(pg, v, d)
    {
      assert v[c][i].docUuid == d;
    }
  }

  lemma {:induction false} OtherNodesLeftIff(g: Graph, d: DocUuid, chunks: seq<Chunk>)
    ensures NodesListed(MergeChunkNodes(RemoveGraph(g, d), d, chunks), d, ChunkIds(chunks)) <==>
      OtherNodesHang(g, d, ChunkIds(chunks))
  {
    var ids, g1 := ChunkIds(chunks), RemoveGraph(g, d);
    var nodes := MergeNodes(g1.nodes, d, chunks);
    forall c | c !in ids
      ensures (c in nodes <==> c in g1.nodes) && (c in g1.nodes ==> nodes[c] == g1.nodes[c])
    {
      forall i | 0 <= i < |chunks| ensures chunks[i].chunkUuid != c {
        assert ids[i] == chunks[i].chunkUuid;
      }
      OtherNodes(g1.nodes, d, chunks, c);
    }
    forall c | c in g.nodes
      ensures c in g1.nodes <==> !(d in g.titles && Edge(d, c) in g.contains)
    {
      if d in g.titles && Edge(d, c) in g.contains {
        assert Edge(d, c).chunk in Children(g, d);
      }
    }
    forall c | c in g.nodes && g.nodes[c].doc == d && c !in ids && !(d in g.titles && Edge(d, c) in g.contains)
      ensures !NodesListed(MergeChunkNodes(g1, d, chunks), d, ids)
    {
      assert c in nodes && nodes[c].doc == d;
    }
  }

  /** A completed update makes the listed chunks current, and leaves nothing else of the document in Milvus
      if and only if there was no vector of it outside the listed chunks before, and nothing else in Neo4j
      if and only if every other chunk node of it hung on its document node. */
  lemma {:induction false} CompletedUpdateIsAllIff(pg: Primary, enc: Encoding, s: Derived, e: DocEvent, calls: Calls)
    requires e.Updated? && DistinctIds(ChunksOf(pg, e.doc))
    requires AfterUpdated(pg, enc, s, e, calls).1 == Some(SyncCompleted(e.doc, [Milvus, Neo4j]))
    ensures var s' := AfterUpdated(pg, enc, s, e, calls).0;
      var ids := ChunkIds(ChunksOf(pg, e.doc));
      && (VectorsListed(pg, s'.vectors, e.doc) <==> VectorsListed(pg, s.vectors, e.doc))
      && (NodesListed(s'.graph, e.doc, ids) <==> OtherNodesHang(s.graph, e.doc, ids))
  {
    var d, chunks := e.doc, ChunksOf(pg, e.doc);
    var s' := AfterUpdated(pg, enc, s, e, calls).0;
    VectorsSynced(s.vectors, d, chunks, enc(Texts(chunks)), calls);
    GraphSynced(s.graph, d, e.title, chunks, calls);
    OtherVectorsKept(s.vectors, s'.vectors, pg, d);
    OtherNodesLeftIff(s.graph, d, chunks);
    assert s'.graph.nodes == MergeNodes(RemoveGraph(s.graph, d).nodes, d, chunks);
  }
}
