/** What steps leave in the stores, said on their contents: which rows, vectors, nodes and edges are there
    afterwards, given those that were there before. */
module SagaEffects {
  import opened Stores
  import opened Saga

  predicate NamesId(chunks: seq<Chunk>, c: ChunkUuid) {
    exists i :: 0 <= i < |chunks| && chunks[i].chunkUuid == c
  }

  /** v is the vector row of some chunk, with the embeddings at the place of that chunk. */
  predicate IsVectorOf(v: VectorRow, d: DocUuid, chunks: seq<Chunk>, e: Embeddings) {
    exists i :: 0 <= i < |chunks| && i < |e.dense| && i < |e.sparse|
      && v.docUuid == d && v.chunkUuid == chunks[i].chunkUuid && v.text == chunks[i].text
      && v.dense == e.dense[i] && v.sparse == e.sparse[i]
  }

  /** Every chunk has an embedding and now a vector; all other vectors are as before. */
  ghost predicate VectorsAdded(s: Stores, s': Stores, d: DocUuid, chunks: seq<Chunk>, e: Embeddings) {
    && |chunks| <= |e.dense| && |chunks| <= |e.sparse|
    && forall v :: v in s'.vectors <==> v in s.vectors || IsVectorOf(v, d, chunks, e)
  }

  /** Nodes and edges are there for the document and every chunk; all others are as before. */
  ghost predicate GraphAdded(s: Stores, s': Stores, d: DocUuid, chunks: seq<Chunk>) {
    && (forall n :: n in s'.docNodes <==> n in s.docNodes || n == d)
    && (forall c :: c in s'.chunkNodes <==> c in s.chunkNodes || NamesId(chunks, c))
    && forall e :: e in s'.contains <==> e in s.contains || (e.doc == d && NamesId(chunks, e.chunk))
  }

  ghost predicate SameGraph(s: Stores, s': Stores) {
    s'.docNodes == s.docNodes && s'.chunkNodes == s.chunkNodes && s'.contains == s.contains
  }

  /** Without a document node nothing happens; with one, it and every chunk node that hung on it are
      gone, with all edges of either, and all other nodes and edges are as before. */
  ghost predicate GraphGone(s: Stores, s': Stores, d: DocUuid) {
    if d !in s.docNodes then SameGraph(s, s') else
      && (forall n :: n in s'.docNodes <==> n in s.docNodes && n != d)
      && (forall c :: c in s'.chunkNodes <==> c in s.chunkNodes && Edge(d, c) !in s.contains)
      && forall e :: e in s'.contains <==> e in s.contains && e.doc != d && Edge(d, e.chunk) !in s.contains
  }

  ghost predicate VectorsGone(s: Stores, s': Stores, d: DocUuid) {
    forall v :: v in s'.vectors <==> v in s.vectors && v.docUuid != d
  }

  /** The row of the document and its chunk rows are gone, all others are as before. */
  ghost predicate RowsGone(s: Stores, s': Stores, d: DocUuid) {
    && (forall x :: x in s'.documents <==> x in s.documents && x != d)
    && (forall x :: x in s'.documents ==> s'.documents[x] == s.documents[x])
    && forall r :: r in s'.chunkRows <==> r in s.chunkRows && r.docUuid != d
  }

  /** Exactly these stores have lost the document. */
  ghost predicate Removed(s: Stores, s': Stores, d: DocUuid, graph: bool, vectors: bool, rows: bool) {
    && (if graph then GraphGone(s, s', d) else SameGraph(s, s'))
    && (if vectors then VectorsGone(s, s', d) else s'.vectors == s.vectors)
    && (if rows then RowsGone(s, s', d) else s'.documents == s.documents && s'.chunkRows == s.chunkRows)
  }

  lemma {:induction false} DeletionsRemove(s: Stores, d: DocUuid)
    ensures Removed(s, Apply(DeleteGraph(d), s), d, true, false, false)
    ensures Removed(s, Apply(DeleteVectors(d), s), d, false, true, false)
    ensures Removed(s, Apply(DeleteDocument(d), s), d, false, false, true)
  {
    forall c ensures c in GraphChunks(s, d) <==> Edge(d, c) in s.contains {
      assert Edge(d, c).chunk == c;
    }
  }

  lemma {:induction false} NamesIds(chunks: seq<Chunk>)
    ensures forall c :: c in Ids(chunks) <==> NamesId(chunks, c)
    ensures forall c :: c in ChunkIds(chunks) <==> NamesId(chunks, c)
  {
    forall c | NamesId(chunks, c) ensures c in ChunkIds(chunks) {
      var i :| 0 <= i < |chunks| && chunks[i].chunkUuid == c;
      assert ChunkIds(chunks)[i] == c;
    }
  }

  lemma {:induction false} InsertAddsVectors(s: Stores, d: DocUuid, chunks: seq<Chunk>, e: Embeddings)
    requires |chunks| <= |e.dense| && |chunks| <= |e.sparse|
    ensures VectorsAdded(s, Apply(InsertVectors(VectorRows(d, chunks, e)), s), d, chunks, e)
  {
    var rows := VectorRows(d, chunks, e);
    forall v ensures v in rows <==> IsVectorOf(v, d, chunks, e) {
      if i :| 0 <= i < |chunks| && v.docUuid == d && v.chunkUuid == chunks[i].chunkUuid && v.text == chunks[i].text
              && v.dense == e.dense[i] && v.sparse == e.sparse[i] {
        assert v == rows[i];
      }
    }
  }
}
