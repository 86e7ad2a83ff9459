/** The three stores a document lives in, and every repository call a saga makes on them.

    PostgreSQL holds document rows and chunk rows, Milvus holds vector rows, Neo4j holds document
    nodes, chunk nodes and CONTAINS edges.  A repository call is a value of type `Op`; `Accepts`
    says when the store can carry it out and `Apply` what it then does. */
module Stores {

  datatype Option<+T> = None | Some(value: T)

  type DocUuid = string
  type ChunkUuid = string
  type Vector = seq<real>

  datatype Document = Document(docUuid: DocUuid, title: string, status: string)
  datatype Chunk = Chunk(chunkUuid: ChunkUuid, docUuid: DocUuid, text: string)
  datatype VectorRow =
    VectorRow(chunkUuid: ChunkUuid, docUuid: DocUuid, dense: Vector, sparse: Vector, text: string)
  datatype Edge = Edge(doc: DocUuid, chunk: ChunkUuid)

  datatype Stores = Stores(
    documents: map<DocUuid, Document>,
    chunkRows: set<Chunk>,
    vectors: set<VectorRow>,
    docNodes: set<DocUuid>,
    chunkNodes: set<ChunkUuid>,
    contains: set<Edge>)

  datatype Op =
    | CreateDocument(doc: Document)
    | CreateChunks(chunks: seq<Chunk>)
    | GetDocument(docUuid: DocUuid)
    | GetChunks(docUuid: DocUuid)
    | UpdateDocument(docUuid: DocUuid, doc: Document)
    | DeleteChunks(docUuid: DocUuid)
    | DeleteDocument(docUuid: DocUuid)
    | InsertVectors(rows: seq<VectorRow>)
    | DeleteVectors(docUuid: DocUuid)
    | CreateDocNode(docUuid: DocUuid)
    | CreateChunkNodes(ids: seq<ChunkUuid>)
    | CreateEdges(docUuid: DocUuid, ids: seq<ChunkUuid>)
    | GetGraph(docUuid: DocUuid)
    | DeleteGraph(docUuid: DocUuid)
    | Raise  // the step raises before it reaches a repository

  function Ids(chunks: seq<Chunk>): set<ChunkUuid> {
    set c | c in chunks :: c.chunkUuid
  }

  predicate DistinctIds(chunks: seq<Chunk>) {
    forall i, j :: 0 <= i < j < |chunks| ==> chunks[i].chunkUuid != chunks[j].chunkUuid
  }

  // Chunk ids of d in PostgreSQL, in Milvus, and reachable from d's node in Neo4j.

  function PgChunks(s: Stores, d: DocUuid): set<ChunkUuid> {
    set r | r in s.chunkRows && r.docUuid == d :: r.chunkUuid
  }

  function VectorChunks(s: Stores, d: DocUuid): set<ChunkUuid> {
    set v | v in s.vectors && v.docUuid == d :: v.chunkUuid
  }

  function GraphChunks(s: Stores, d: DocUuid): set<ChunkUuid> {
    set e | e in s.contains && e.doc == d :: e.chunk
  }

  /** Primary and foreign keys: a call that violates one raises whatever the network does. */
  predicate Accepts(op: Op, s: Stores) {
    match op
    case CreateDocument(doc) => doc.docUuid !in s.documents
    case CreateChunks(chunks) =>
      && DistinctIds(chunks)
      && (forall c :: c in chunks ==> c.docUuid in s.documents)
      && (forall c, r :: c in chunks && r in s.chunkRows ==> c.chunkUuid != r.chunkUuid)
    case Raise => false
    case _ => true
  }

  function Apply(op: Op, s: Stores): Stores {
    match op
    case CreateDocument(doc) => s.(documents := s.documents[doc.docUuid := doc])
    case CreateChunks(chunks) => s.(chunkRows := s.chunkRows + set c | c in chunks)
    case UpdateDocument(d, doc) =>
      if d in s.documents then s.(documents := s.documents[d := doc]) else s
    case DeleteChunks(d) => s.(chunkRows := set r | r in s.chunkRows && r.docUuid != d)
    case DeleteDocument(d) =>
      // ON DELETE CASCADE takes the chunk rows along
      s.(documents := s.documents - {d}, chunkRows := set r | r in s.chunkRows && r.docUuid != d)
    case InsertVectors(rows) => s.(vectors := s.vectors + set v | v in rows)
    case DeleteVectors(d) => s.(vectors := set v | v in s.vectors && v.docUuid != d)
    case CreateDocNode(d) => s.(docNodes := s.docNodes + {d})
    case CreateChunkNodes(ids) => s.(chunkNodes := s.chunkNodes + set c | c in ids)
    case CreateEdges(d, ids) =>
      // MATCH on both ends: an edge appears only between nodes that exist
      if d in s.docNodes
      then s.(contains := s.contains + set c | c in ids && c in s.chunkNodes :: Edge(d, c))
      else s
    case DeleteGraph(d) =>
      if d !in s.docNodes then s else
        var children := GraphChunks(s, d);
        s.(docNodes := s.docNodes - {d},
           chunkNodes := s.chunkNodes - children,
           contains := set e | e in s.contains && e.doc != d && e.chunk !in children)
    case GetDocument(_) => s
    case GetChunks(_) => s
    case GetGraph(_) => s
    case Raise => s
  }

  /** Key constraints of the stores: chunk ids are unique, chunk rows point at a document row,
      edges join existing nodes. */
  ghost predicate WellFormed(s: Stores) {
    && (forall r, r' :: r in s.chunkRows && r' in s.chunkRows && r.chunkUuid == r'.chunkUuid ==> r == r')
    && (forall r :: r in s.chunkRows ==> r.docUuid in s.documents)
    && (forall e :: e in s.contains ==> e.doc in s.docNodes && e.chunk in s.chunkNodes)
  }

  ghost predicate GraphBehind(s: Stores) {
    forall e :: e in s.contains ==> e.chunk in PgChunks(s, e.doc)
  }

  ghost predicate VectorsBehind(s: Stores) {
    forall v :: v in s.vectors ==> v.chunkUuid in PgChunks(s, v.docUuid)
  }

  /** Everything the stores hold about one document. */
  datatype Slice = Slice(
    row: Option<Document>, chunks: set<Chunk>, vectors: set<VectorRow>, node: bool, children: set<ChunkUuid>)

  function SliceOf(s: Stores, d: DocUuid): Slice {
    Slice(
      if d in s.documents then Some(s.documents[d]) else None,
      (set r | r in s.chunkRows && r.docUuid == d),
      (set v | v in s.vectors && v.docUuid == d),
      d in s.docNodes,
      GraphChunks(s, d))
  }

  ghost predicate SameElsewhere(s: Stores, s': Stores, d: DocUuid) {
    forall d' :: d' != d ==> SliceOf(s', d') == SliceOf(s, d')
  }
}
