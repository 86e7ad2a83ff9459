/** Redelivery of document events: with PostgreSQL fixed and no failing call, handling a run of events
    and then any suffix of it again ends where a single pass ends. */
module SyncReplay {
  import opened Stores
  import opened Saga
  import opened Sync

  const ALL_OK := Calls(true, true, true, true, true, true, true)

  /** The fixed surroundings and the state before the first event. */
  datatype Setup = Setup(pg: Primary, enc: Encoding, init: Derived)

  predicate IsAt(pg: Primary, c: ChunkUuid, d: DocUuid, i: int) {
    d in pg && 0 <= i < |pg[d]| && pg[d][i].chunkUuid == c
  }

  /** Chunk ids are a primary key of PostgreSQL, every edge starts at a node, and there is an embedding
      for every text. */
  ghost predicate Sane(setup: Setup) {
    && (forall c, d, i, d', i' :: IsAt(setup.pg, c, d, i) && IsAt(setup.pg, c, d', i') ==> d == d' && i == i')
    && EdgesJoinNodes(setup.init.graph)
    && (forall d :: d in setup.pg ==> Enough(setup.pg[d], setup.enc(Texts(setup.pg[d]))))
  }

  /** A chunk of PostgreSQL that any document node contains is contained by its own document's. */
  ghost predicate Owned(setup: Setup) {
    forall e, d, i :: e in setup.init.graph.contains && IsAt(setup.pg, e.chunk, d, i) ==>
      Edge(d, e.chunk) in setup.init.graph.contains
  }

  function Handle(setup: Setup, s: Derived, e: DocEvent): Derived {
    AfterEvent(setup.pg, setup.enc, s, e, ALL_OK).0
  }

  function HandleAll(setup: Setup, s: Derived, es: seq<DocEvent>): Derived {
    if es == [] then s else Handle(setup, HandleAll(setup, s, es[..|es| - 1]), es[|es| - 1])
  }

  /** Updates without changed content, or of a document without chunks, do nothing. */
  predicate Effective(pg: Primary, e: DocEvent) {
    e.Deleted? || (e.contentChanged && ChunksOf(pg, e.doc) != [])
  }

  function Last(pg: Primary, es: seq<DocEvent>, d: DocUuid): Option<DocEvent> {
    if es == [] then None
    else
      var e := es[|es| - 1];
      if e.doc == d && Effective(pg, e) then Some(e) else Last(pg, es[..|es| - 1], d)
  }

  /** Some event built the graph of d. */
  predicate Built(pg: Primary, es: seq<DocEvent>, d: DocUuid) {
    es != [] &&
    var e := es[|es| - 1];
    (e.doc == d && e.Updated? && Effective(pg, e)) || Built(pg, es[..|es| - 1], d)
  }

  function Look<K, V>(m: map<K, V>, k: K): Option<V> {
    if k in m then Some(m[k]) else None
  }

  // ---------------------------------------------------------------- the state a run of events ends in

  /** Some document that contained c at the start has been rebuilt or deleted. */
  ghost predicate Removed(setup: Setup, es: seq<DocEvent>, c: ChunkUuid) {
    exists y :: Edge(y, c) in setup.init.graph.contains && Last(setup.pg, es, y).Some?
  }

  function TitleAfter(setup: Setup, es: seq<DocEvent>, d: DocUuid): Option<string> {
    match Last(setup.pg, es, d)
    case None => Look(setup.init.graph.titles, d)
    case Some(Updated(_, title, _)) => Some(title)
    case Some(Deleted(_)) => None
  }

  ghost predicate TitlesAs(setup: Setup, es: seq<DocEvent>, g: Graph) {
    forall d :: Look(g.titles, d) == TitleAfter(setup, es, d)
  }

  ghost predicate EdgesAs(setup: Setup, es: seq<DocEvent>, g: Graph) {
    forall e :: e in g.contains <==> e in setup.init.graph.contains && !Removed(setup, es, e.chunk)
  }

  ghost predicate NodesAs(setup: Setup, es: seq<DocEvent>, g: Graph) {
    && (forall c, d, i :: IsAt(setup.pg, c, d, i) && Built(setup.pg, es, d) ==>
      Look(g.nodes, c) == Some(ChunkNode(d, Preview(setup.pg[d][i].text), i)))
    && (forall c :: (forall d, i :: IsAt(setup.pg, c, d, i) ==> !Built(setup.pg, es, d)) ==>
      Look(g.nodes, c) == if Removed(setup, es, c) then None else Look(setup.init.graph.nodes, c))
  }

  ghost predicate VectorsAs(setup: Setup, es: seq<DocEvent>, v: Vectors)
    requires Sane(setup)
  {
    && (forall c, d, i :: IsAt(setup.pg, c, d, i) ==>
      Look(v, c) == match Last(setup.pg, es, d)
        case None => Look(setup.init.vectors, c)
        case Some(Updated(_, _, _)) => Some([Row(d, setup.pg[d], setup.enc(Texts(setup.pg[d])), i)])
        case Some(Deleted(_)) => None)
    && (forall c :: (forall d, i :: !IsAt(setup.pg, c, d, i)) ==> Look(v, c) == Look(setup.init.vectors, c))
  }

  lemma {:induction false} LastSnoc(pg: Primary, es: seq<DocEvent>, e: DocEvent)
    ensures forall d :: Last(pg, es + [e], d) == if e.doc == d && Effective(pg, e) then Some(e) else Last(pg, es, d)
    ensures forall d :: Built(pg, es + [e], d) <==> (e.doc == d && e.Updated? && Effective(pg, e)) || Built(pg, es, d)
  {
    assert (es + [e])[..|es|] == es;
  }

  lemma {:induction false} BuiltHasLast(pg: Primary, es: seq<DocEvent>, d: DocUuid)
    requires Built(pg, es, d)
    ensures Last(pg, es, d).Some?
  {
    var e := es[|es| - 1];
    if !(e.doc == d && Effective(pg, e)) {
      BuiltHasLast(pg, es[..|es| - 1], d);
    }
  }

  lemma {:induction false} RemovedSnoc(setup: Setup, es: seq<DocEvent>, e: DocEvent, c: ChunkUuid)
    requires Effective(setup.pg, e)
    ensures Removed(setup, es + [e], c) <==>
      Removed(setup, es, c) || Edge(e.doc, c) in setup.init.graph.contains
  {
  }

  /** Edges found after some events start at a node, and stand or fall together with the other edges to
      the same chunk. */
  lemma {:induction false} EdgesLeft(setup: Setup, es: seq<DocEvent>, g: Graph)
    requires Sane(setup) && TitlesAs(setup, es, g) && EdgesAs(setup, es, g)
    ensures EdgesJoinNodes(g)
  {
    forall e | e in g.contains ensures e.doc in g.titles {
      assert Edge(e.doc, e.chunk) == e;
      assert Last(setup.pg, es, e.doc).None?;
      assert Look(g.titles, e.doc) == TitleAfter(setup, es, e.doc);
    }
  }

  lemma {:induction false} RemovedGraph(g: Graph, d: DocUuid)
    requires EdgesJoinNodes(g)
    ensures var g' := RemoveGraph(g, d);
      && (forall x :: Look(g'.titles, x) == if x == d then None else Look(g.titles, x))
      && (forall e :: e in g'.contains <==> e in g.contains && Edge(d, e.chunk) !in g.contains)
      && (forall c :: Look(g'.nodes, c) == if Edge(d, c) in g.contains then None else Look(g.nodes, c))
  {
  }

  lemma {:induction false} TitlesStep(setup: Setup, es: seq<DocEvent>, e: DocEvent, g: Graph, g': Graph)
    requires Effective(setup.pg, e) && TitlesAs(setup, es, g)
    requires forall x :: Look(g'.titles, x) == if x != e.doc then Look(g.titles, x)
      else if e.Updated? then Some(e.title) else None
    ensures TitlesAs(setup, es + [e], g')
  {
    LastSnoc(setup.pg, es, e);
  }

  lemma {:induction false} EdgesStep(setup: Setup, es: seq<DocEvent>, e: DocEvent, g: Graph, g': Graph)
    requires Effective(setup.pg, e) && EdgesAs(setup, es, g)
    requires forall x :: x in g'.contains <==> x in g.contains && Edge(e.doc, x.chunk) !in g.contains
    ensures EdgesAs(setup, es + [e], g')
  {
  }

  /** No edge is left to a chunk whose document has been built. */
  lemma {:induction false} BuiltIsFree(setup: Setup, es: seq<DocEvent>, g: Graph, c: ChunkUuid, d: DocUuid,
      i: int, y: DocUuid)
    requires Owned(setup) && EdgesAs(setup, es, g) && IsAt(setup.pg, c, d, i) && Built(setup.pg, es, d)
    ensures Edge(y, c) !in g.contains
  {
    if Edge(y, c) in setup.init.graph.contains {
      assert Edge(y, c).chunk == c;
      assert Edge(d, c) in setup.init.graph.contains;
      BuiltHasLast(setup.pg, es, d);
      assert Removed(setup, es, c);
    }
  }

  lemma {:induction false} NodesStep(setup: Setup, es: seq<DocEvent>, e: DocEvent, g: Graph, g': Graph)
    requires Owned(setup) && Effective(setup.pg, e) && EdgesAs(setup, es, g) && NodesAs(setup, es, g)
    requires forall c :: (e.Deleted? || forall i :: !IsAt(setup.pg, c, e.doc, i)) ==>
      Look(g'.nodes, c) == if Edge(e.doc, c) in g.contains then None else Look(g.nodes, c)
    requires e.Updated? ==> forall c, i :: IsAt(setup.pg, c, e.doc, i) ==>
      Look(g'.nodes, c) == Some(ChunkNode(e.doc, Preview(setup.pg[e.doc][i].text), i))
    requires Sane(setup)
    ensures NodesAs(setup, es + [e], g')
  {
    LastSnoc(setup.pg, es, e);
    forall c, d, i | IsAt(setup.pg, c, d, i) && Built(setup.pg, es + [e], d)
      ensures Look(g'.nodes, c) == Some(ChunkNode(d, Preview(setup.pg[d][i].text), i))
    {
      if !(e.Updated? && d == e.doc) {
        BuiltIsFree(setup, es, g, c, d, i, e.doc);
      }
    }
    forall c | forall d, i :: IsAt(setup.pg, c, d, i) ==> !Built(setup.pg, es + [e], d)
      ensures Look(g'.nodes, c) == if Removed(setup, es + [e], c) then None else Look(setup.init.graph.nodes, c)
    {
      RemovedSnoc(setup, es, e, c);
      assert Edge(e.doc, c) in g.contains <==> Edge(e.doc, c) in setup.init.graph.contains && !Removed(setup, es, c);
    }
  }

  lemma {:induction false} ChunkIdAt(setup: Setup, d: DocUuid, c: ChunkUuid)
    ensures c in ChunkIds(ChunksOf(setup.pg, d)) <==> exists i :: IsAt(setup.pg, c, d, i)
  {
    var chunks := ChunksOf(setup.pg, d);
    if c in ChunkIds(chunks) {
      var i :| 0 <= i < |chunks| && ChunkIds(chunks)[i] == c;
      assert IsAt(setup.pg, c, d, i);
    }
    if i :| IsAt(setup.pg, c, d, i) {
      assert ChunkIds(chunks)[i] == c;
    }
  }

  lemma {:induction false} Keys(setup: Setup, d: DocUuid)
    requires Sane(setup)
    ensures DistinctIds(ChunksOf(setup.pg, d))
  {
    var chunks := ChunksOf(setup.pg, d);
    forall i, j | 0 <= i < j < |chunks| ensures chunks[i].chunkUuid != chunks[j].chunkUuid {
      assert IsAt(setup.pg, chunks[i].chunkUuid, d, i) && IsAt(setup.pg, chunks[j].chunkUuid, d, j);
    }
  }

  lemma {:induction false} VectorsStep(setup: Setup, es: seq<DocEvent>, e: DocEvent, s: Derived)
    requires Sane(setup) && Effective(setup.pg, e) && VectorsAs(setup, es, s.vectors)
    ensures VectorsAs(setup, es + [e], Handle(setup, s, e).vectors)
  {
    LastSnoc(setup.pg, es, e);
    var d, chunks := e.doc, ChunksOf(setup.pg, e.doc);
    var emb := setup.enc(Texts(chunks));
    Keys(setup, d);
    VectorsSynced(s.vectors, d, chunks, emb, ALL_OK);
    var v' := Handle(setup, s, e).vectors;
    forall c ensures (forall i :: !IsAt(setup.pg, c, d, i)) ==> Look(v', c) == Look(s.vectors, c) {
      ChunkIdAt(setup, d, c);
    }
    forall c, i | IsAt(setup.pg, c, d, i)
      ensures Look(v', c) == if e.Updated? then Some([Row(d, chunks, emb, i)]) else None
    {
      ChunkIdAt(setup, d, c);
    }
  }

  lemma {:induction false} GraphStep(setup: Setup, es: seq<DocEvent>, e: DocEvent, s: Derived)
    requires Sane(setup) && Owned(setup) && Effective(setup.pg, e)
    requires TitlesAs(setup, es, s.graph) && EdgesAs(setup, es, s.graph) && NodesAs(setup, es, s.graph)
    ensures var g := Handle(setup, s, e).graph;
      TitlesAs(setup, es + [e], g) && EdgesAs(setup, es + [e], g) && NodesAs(setup, es + [e], g)
  {
    var d, g, g' := e.doc, s.graph, Handle(setup, s, e).graph;
    EdgesLeft(setup, es, g);
    RemovedGraph(g, d);
    if e.Updated? {
      var chunks := ChunksOf(setup.pg, d);
      Keys(setup, d);
      forall c, i | IsAt(setup.pg, c, d, i)
        ensures Look(g'.nodes, c) == Some(ChunkNode(d, Preview(setup.pg[d][i].text), i))
      {
        MergedNodes(RemoveGraph(g, d).nodes, d, chunks, i);
      }
      forall c | forall i :: !IsAt(setup.pg, c, d, i)
        ensures Look(g'.nodes, c) == if Edge(d, c) in g.contains then None else Look(g.nodes, c)
      {
        forall i | 0 <= i < |chunks| ensures chunks[i].chunkUuid != c {
          assert !IsAt(setup.pg, c, d, i);
        }
        OtherNodes(RemoveGraph(g, d).nodes, d, chunks, c);
      }
    }
    TitlesStep(setup, es, e, g, g');
    EdgesStep(setup, es, e, g, g');
    NodesStep(setup, es, e, g, g');
  }

  ghost predicate StateAs(setup: Setup, es: seq<DocEvent>, s: Derived)
    requires Sane(setup)
  {
    && TitlesAs(setup, es, s.graph) && EdgesAs(setup, es, s.graph)
    && NodesAs(setup, es, s.graph) && VectorsAs(setup, es, s.vectors)
  }

  lemma {:induction false} IdleStep(setup: Setup, es: seq<DocEvent>, e: DocEvent, s: Derived)
    requires Sane(setup) && !Effective(setup.pg, e) && StateAs(setup, es, s)
    ensures StateAs(setup, es + [e], Handle(setup, s, e))
  {
    LastSnoc(setup.pg, es, e);
    assert Handle(setup, s, e) == s;
    forall c ensures Removed(setup, es + [e], c) <==> Removed(setup, es, c) {
    }
  }

  /** What the derived stores hold after a run of events, for every key. */
  lemma {:induction false} RunEndsAs(setup: Setup, es: seq<DocEvent>)
    requires Sane(setup) && Owned(setup)
    ensures StateAs(setup, es, HandleAll(setup, setup.init, es))
    decreases |es|
  {
    if es != [] {
      var n := |es| - 1;
      var s := HandleAll(setup, setup.init, es[..n]);
      RunEndsAs(setup, es[..n]);
      assert es == es[..n] + [es[n]];
      if Effective(setup.pg, es[n]) {
        GraphStep(setup, es[..n], es[n], s);
        VectorsStep(setup, es[..n], es[n], s);
      } else {
        IdleStep(setup, es[..n], es[n], s);
      }
    }
  }

  // ---------------------------------------------------------------- replay

  lemma {:induction false} LastConcat(pg: Primary, a: seq<DocEvent>, b: seq<DocEvent>, d: DocUuid)
    ensures Last(pg, a + b, d) == if Last(pg, b, d).Some? then Last(pg, b, d) else Last(pg, a, d)
    ensures Built(pg, a + b, d) <==> Built(pg, a, d) || Built(pg, b, d)
    decreases |b|
  {
    if b == [] {
      assert a + b == a;
    } else {
      LastConcat(pg, a, b[..|b| - 1], d);
      assert (a + b)[..|a + b| - 1] == a + b[..|b| - 1];
    }
  }

  lemma {:induction false} SameMaps<K, V>(m: map<K, V>, m': map<K, V>)
    requires forall k :: Look(m, k) == Look(m', k)
    ensures m == m'
  {
    forall k ensures k in m <==> k in m' {
      assert Look(m, k) == Look(m', k);
    }
    forall k | k in m ensures m[k] == m'[k] {
      assert Look(m, k) == Look(m', k);
    }
  }

  lemma {:induction false} SameState(setup: Setup, es: seq<DocEvent>, es': seq<DocEvent>, s: Derived, s': Derived)
    requires Sane(setup) && StateAs(setup, es, s) && StateAs(setup, es', s')
    requires forall d :: Last(setup.pg, es, d) == Last(setup.pg, es', d)
    requires forall d :: Built(setup.pg, es, d) == Built(setup.pg, es', d)
    ensures s == s'
  {
    forall c ensures Removed(setup, es, c) <==> Removed(setup, es', c) {
    }
    SameMaps(s.graph.titles, s'.graph.titles);
    assert s.graph.contains == s'.graph.contains;
    forall c ensures Look(s.graph.nodes, c) == Look(s'.graph.nodes, c) {
      if d, i :| IsAt(setup.pg, c, d, i) && Built(setup.pg, es, d) {
      }
    }
    SameMaps(s.graph.nodes, s'.graph.nodes);
    forall c ensures Look(s.vectors, c) == Look(s'.vectors, c) {
      if d, i :| IsAt(setup.pg, c, d, i) {
      }
    }
    SameMaps(s.vectors, s'.vectors);
  }

  /** Handling any suffix of the events once more changes nothing. */
  lemma {:induction false} ReplayIsHarmless(setup: Setup, es: seq<DocEvent>, k: nat)
    requires Sane(setup) && Owned(setup) && k <= |es|
    ensures HandleAll(setup, setup.init, es + es[k..]) == HandleAll(setup, setup.init, es)
  {
    RunEndsAs(setup, es);
    RunEndsAs(setup, es + es[k..]);
    forall d
      ensures Last(setup.pg, es + es[k..], d) == Last(setup.pg, es, d)
      ensures Built(setup.pg, es + es[k..], d) == Built(setup.pg, es, d)
    {
      LastConcat(setup.pg, es, es[k..], d);
      LastConcat(setup.pg, es[..k], es[k..], d);
      assert es == es[..k] + es[k..];
    }
    SameState(setup, es + es[k..], es, HandleAll(setup, setup.init, es + es[k..]), HandleAll(setup, setup.init, es));
  }

  lemma {:induction false} HandleSnoc(setup: Setup, s: Derived, es: seq<DocEvent>, e: DocEvent)
    ensures HandleAll(setup, s, es + [e]) == Handle(setup, HandleAll(setup, s, es), e)
  {
    assert (es + [e])[..|es|] == es;
  }

  lemma {:induction false} HandlePairs(setup: Setup, s: Derived, u: DocEvent, x: DocEvent)
    ensures var es := [u, x];
      var s2 := Handle(setup, Handle(setup, s, u), x);
      && HandleAll(setup, s, es) == s2
      && HandleAll(setup, s, es + es) == Handle(setup, Handle(setup, s2, u), x)
  {
    var es := [u, x];
    HandleSnoc(setup, s, [], u);
    HandleSnoc(setup, s, [u], x);
    HandleSnoc(setup, s, es, u);
    HandleSnoc(setup, s, es + [u], x);
    assert [] + [u] == [u] && [u] + [x] == es && (es + [u]) + [x] == es + es;
  }

  lemma {:induction false} DeletingAgain(setup: Setup, s: Derived, y: DocUuid)
    requires y !in s.graph.titles
    ensures Handle(setup, s, Deleted(y)).graph == s.graph
  {
  }

  lemma {:induction false} DeletingRemoves(setup: Setup, s: Derived, y: DocUuid, c: ChunkUuid)
    requires y in s.graph.titles && Edge(y, c) in s.graph.contains
    ensures var g := Handle(setup, s, Deleted(y)).graph; y !in g.titles && c !in g.nodes
  {
    assert Edge(y, c).chunk in Children(s.graph, y);
  }

  /** A chunk of d that another document's node contains, and d's own does not, is lost when that other
      document is deleted, and comes back when both events are handled again. */
  lemma {:induction false} ForeignEdgeBreaksReplay(setup: Setup, y: DocUuid, c: ChunkUuid, d: DocUuid, i: int)
    requires Sane(setup) && IsAt(setup.pg, c, d, i)
    requires Edge(y, c) in setup.init.graph.contains && Edge(d, c) !in setup.init.graph.contains
    ensures var es := [Updated(d, "", true), Deleted(y)];
      HandleAll(setup, setup.init, es + es) != HandleAll(setup, setup.init, es)
  {
    var u, x := Updated(d, "", true), Deleted(y);
    var s1 := Handle(setup, setup.init, u);
    var s2 := Handle(setup, s1, x);
    HandlePairs(setup, setup.init, u, x);
    assert Edge(y, c).doc in setup.init.graph.titles;
    BuildingAddsNode(setup, setup.init, u, c, i);
    RemovedGraph(setup.init.graph, d);
    assert Edge(y, c).chunk == c;
    assert Look(RemoveGraph(setup.init.graph, d).titles, y) == Look(setup.init.graph.titles, y);
    DeletingRemoves(setup, s1, y, c);
    BuildingAddsNode(setup, s2, u, c, i);
    DeletingAgain(setup, Handle(setup, s2, u), y);
  }

  lemma {:induction false} BuildingAddsNode(setup: Setup, s: Derived, u: DocEvent, c: ChunkUuid, i: int)
    requires Sane(setup) && u.Updated? && u.contentChanged && IsAt(setup.pg, c, u.doc, i)
    ensures c in Handle(setup, s, u).graph.nodes
    ensures Handle(setup, s, u).graph.titles == RemoveGraph(s.graph, u.doc).titles[u.doc := u.title]
    ensures Handle(setup, s, u).graph.contains == RemoveGraph(s.graph, u.doc).contains
  {
    Keys(setup, u.doc);
    MergedNodes(RemoveGraph(s.graph, u.doc).nodes, u.doc, setup.pg[u.doc], i);
  }

  ghost predicate Harmless(setup: Setup) {
    forall es, k :: 0 <= k <= |es| ==>
      HandleAll(setup, setup.init, es + es[k..]) == HandleAll(setup, setup.init, es)
  }

  /** Replay is harmless for every run of events and every suffix if and only if no document's chunk
      hangs on another document's node alone. */
  lemma {:induction false} ReplayIsHarmlessIff(setup: Setup)
    requires Sane(setup)
    ensures Harmless(setup) <==> Owned(setup)
  {
    if Owned(setup) {
      forall es, k | 0 <= k <= |es|
        ensures HandleAll(setup, setup.init, es + es[k..]) == HandleAll(setup, setup.init, es)
      {
        ReplayIsHarmless(setup, es, k);
      }
    } else {
      var e, d, i :| e in setup.init.graph.contains && IsAt(setup.pg, e.chunk, d, i)
        && Edge(d, e.chunk) !in setup.init.graph.contains;
      var es := [Updated(d, "", true), Deleted(e.doc)];
      ForeignEdgeBreaksReplay(setup, e.doc, e.chunk, d, i);
      assert es[0..] == es;
    }
  }

  /** In a graph that is nowhere ahead of PostgreSQL, as the sagas leave it, replay is harmless. */
  lemma {:induction false} BehindIsHarmless(setup: Setup)
    requires Sane(setup)
    requires forall e :: e in setup.init.graph.contains ==> exists i :: IsAt(setup.pg, e.chunk, e.doc, i)
    ensures Harmless(setup)
  {
    forall e, d, i | e in setup.init.graph.contains && IsAt(setup.pg, e.chunk, d, i)
      ensures Edge(d, e.chunk) in setup.init.graph.contains
    {
      var j :| IsAt(setup.pg, e.chunk, e.doc, j);
      assert e == Edge(d, e.chunk);
    }
    ReplayIsHarmlessIff(setup);
  }

  // ---------------------------------------------------------------- redelivery after crashes

  /** The consumer hands over the event at its position, or goes back to an earlier position, as it does
      when it resumes from the committed offset. */
  datatype Handover = Deliver | Resume(from: nat)

  /** The events handled, repetitions included, and the position reached. */
  function Handled(log: seq<DocEvent>, steps: seq<Handover>): (r: (seq<DocEvent>, nat))
    ensures r.1 <= |log|
  {
    if steps == [] then ([], 0) else
      var (es, position) := Handled(log, steps[..|steps| - 1]);
      match steps[|steps| - 1]
      case Deliver => if position < |log| then (es + [log[position]], position + 1) else (es, position)
      case Resume(from) => (es, if from < position then from else position)
  }

  /** Handling what is left of the log would complete a single pass. */
  ghost predicate Completes(pg: Primary, log: seq<DocEvent>, es: seq<DocEvent>, position: nat)
    requires position <= |log|
  {
    forall d :: Last(pg, es + log[position..], d) == Last(pg, log, d)
      && Built(pg, es + log[position..], d) == Built(pg, log, d)
  }

  lemma {:induction false} ResumeAt(pg: Primary, es: seq<DocEvent>, a: seq<DocEvent>, b: seq<DocEvent>,
      c: seq<DocEvent>, d: DocUuid)
    requires Last(pg, es + c, d) == Last(pg, a + (b + c), d) && Built(pg, es + c, d) == Built(pg, a + (b + c), d)
    ensures Last(pg, es + (b + c), d) == Last(pg, a + (b + c), d)
    ensures Built(pg, es + (b + c), d) == Built(pg, a + (b + c), d)
  {
    LastConcat(pg, es, c, d);
    LastConcat(pg, b, c, d);
    LastConcat(pg, es, b + c, d);
    LastConcat(pg, a, b + c, d);
  }

  lemma {:induction false} ResumeCompletes(pg: Primary, log: seq<DocEvent>, es: seq<DocEvent>, position: nat, from: nat)
    requires from <= position <= |log| && Completes(pg, log, es, position)
    ensures Completes(pg, log, es, from)
  {
    var a, b, c := log[..from], log[from..position], log[position..];
    assert log[from..] == b + c && log == a + (b + c);
    forall d
      ensures Last(pg, es + log[from..], d) == Last(pg, log, d)
      ensures Built(pg, es + log[from..], d) == Built(pg, log, d)
    {
      ResumeAt(pg, es, a, b, c, d);
    }
  }

  lemma {:induction false} HandledCompletes(pg: Primary, log: seq<DocEvent>, steps: seq<Handover>)
    ensures var (es, position) := Handled(log, steps); Completes(pg, log, es, position)
    decreases |steps|
  {
    if steps == [] {
      assert [] + log[0..] == log;
    } else {
      var (es, position) := Handled(log, steps[..|steps| - 1]);
      HandledCompletes(pg, log, steps[..|steps| - 1]);
      match steps[|steps| - 1] {
        case Deliver =>
          if position < |log| {
            assert (es + [log[position]]) + log[position + 1..] == es + log[position..];
          }
        case Resume(from) =>
          ResumeCompletes(pg, log, es, position, if from < position then from else position);
      }
    }
  }

  /** However often the consumer goes back and hands events over again, once it has reached the end of
      the log the derived stores are those of a single pass. */
  lemma {:induction false} RedeliveryConverges(setup: Setup, log: seq<DocEvent>, steps: seq<Handover>)
    requires Sane(setup) && Owned(setup)
    requires Handled(log, steps).1 == |log|
    ensures HandleAll(setup, setup.init, Handled(log, steps).0) == HandleAll(setup, setup.init, log)
  {
    var es := Handled(log, steps).0;
    HandledCompletes(setup.pg, log, steps);
    assert es + log[|log|..] == es;
    RunEndsAs(setup, es);
    RunEndsAs(setup, log);
    SameState(setup, es, log, HandleAll(setup, setup.init, es), HandleAll(setup, setup.init, log));
  }
}
