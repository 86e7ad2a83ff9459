/** The search that asks several stores and fuses their answers, with and without weights. */
module UnifiedSearch {
  import opened Stores
  import opened RankFusion
  import opened FusedRanking

  type Weights = map<SearchType, real>

  const DEFAULT_WEIGHTS: Weights := map[Dense := 1.0, Sparse := 0.8, Graph := 0.6]

  function Weight(weights: Option<Weights>, kind: SearchType): real {
    if weights.Some? && kind in weights.value then weights.value[kind] else 1.0
  }

  function ScaleHit(hit: Hit, weight: real): Hit {
    hit.(score := hit.score * weight)
  }

  function Scale(hits: seq<Hit>, weight: real): (scaled: seq<Hit>)
    ensures |scaled| == |hits|
    ensures forall i :: 0 <= i < |hits| ==> scaled[i] == ScaleHit(hits[i], weight)
  {
    seq(|hits|, i requires 0 <= i < |hits| => ScaleHit(hits[i], weight))
  }

  function Reweigh(lists: seq<Ranking>, weights: Option<Weights>): (scaled: seq<Ranking>)
    ensures |scaled| == |lists|
    ensures forall i :: 0 <= i < |lists| ==>
      scaled[i] == Ranking(lists[i].kind, Scale(lists[i].hits, Weight(weights, lists[i].kind)))
  {
    seq(|lists|, i requires 0 <= i < |lists| =>
      Ranking(lists[i].kind, Scale(lists[i].hits, Weight(weights, lists[i].kind))))
  }

  // ---------------------------------------------------------------- raw scores do not matter

  predicate SameHit(h: Hit, h': Hit) {
    h.(score := 0.0) == h'.(score := 0.0)
  }

  predicate SameRanking(r: Ranking, r': Ranking) {
    r.kind == r'.kind && |r.hits| == |r'.hits| &&
    forall i :: 0 <= i < |r.hits| ==> SameHit(r.hits[i], r'.hits[i])
  }

  /** The same chunks in the same places, with possibly different raw scores. */
  predicate SameRankings(lists: seq<Ranking>, lists': seq<Ranking>) {
    |lists| == |lists'| && forall i :: 0 <= i < |lists| ==> SameRanking(lists[i], lists'[i])
  }

  predicate SameOccurrences(occ: seq<Occurrence>, occ': seq<Occurrence>) {
    |occ| == |occ'| &&
    forall i :: 0 <= i < |occ| ==>
      occ[i].kind == occ'[i].kind && occ[i].index == occ'[i].index && SameHit(occ[i].hit, occ'[i].hit)
  }

  predicate SameSources(m: map<SearchType, Source>, m': map<SearchType, Source>) {
    m.Keys == m'.Keys && forall t :: t in m ==> m[t].rank == m'[t].rank
  }

  predicate SameEntry(e: Entry, e': Entry) {
    e.(sources := map[]) == e'.(sources := map[]) && SameSources(e.sources, e'.sources)
  }

  predicate SameEntries(s: seq<Entry>, s': seq<Entry>) {
    |s| == |s'| && forall i :: 0 <= i < |s| ==> SameEntry(s[i], s'[i])
  }

  lemma {:induction false} SameOccurrencesOf(lists: seq<Ranking>, lists': seq<Ranking>)
    requires SameRankings(lists, lists')
    ensures SameOccurrences(Occurrences(lists), Occurrences(lists'))
    decreases |lists|
  {
    if lists != [] {
      SameOccurrencesOf(lists[..|lists| - 1], lists'[..|lists| - 1]);
      assert SameRanking(lists[|lists| - 1], lists'[|lists| - 1]);
    }
  }

  lemma {:induction false} BothMention(occ: seq<Occurrence>, occ': seq<Occurrence>, c: ChunkUuid)
    requires SameOccurrences(occ, occ')
    ensures Mentions(occ, c) <==> Mentions(occ', c)
  {
  }

  lemma {:induction false} SameFirstSeen(occ: seq<Occurrence>, occ': seq<Occurrence>)
    requires SameOccurrences(occ, occ')
    ensures FirstSeen(occ) == FirstSeen(occ')
    decreases |occ|
  {
    if occ != [] {
      var n := |occ| - 1;
      SameFirstSeen(occ[..n], occ'[..n]);
      BothMention(occ[..n], occ'[..n], occ[n].hit.chunkUuid);
    }
  }

  lemma {:induction false} SameScore(k: nat, occ: seq<Occurrence>, occ': seq<Occurrence>, c: ChunkUuid)
    requires SameOccurrences(occ, occ')
    ensures Score(k, occ, c) == Score(k, occ', c)
    ensures SameSources(SourcesOf(occ, c), SourcesOf(occ', c))
    decreases |occ|
  {
    if occ != [] {
      var n := |occ| - 1;
      SameScore(k, occ[..n], occ'[..n], c);
    }
  }

  lemma {:induction false} SameTextAndDoc(occ: seq<Occurrence>, occ': seq<Occurrence>, c: ChunkUuid)
    requires SameOccurrences(occ, occ') && Mentions(occ, c) && Mentions(occ', c)
    ensures DocOf(occ, c) == DocOf(occ', c) && TextOf(occ, c) == TextOf(occ', c)
    decreases |occ|
  {
    var n := |occ| - 1;
    BothMention(occ[..n], occ'[..n], c);
    if Mentions(occ[..n], c) {
      SameTextAndDoc(occ[..n], occ'[..n], c);
    }
  }

  lemma {:induction false} SameValues(k: nat, occ: seq<Occurrence>, occ': seq<Occurrence>)
    requires SameOccurrences(occ, occ')
    ensures SameEntries(Values(k, occ), Values(k, occ'))
  {
    SameFirstSeen(occ, occ');
    forall i | 0 <= i < |FirstSeen(occ)| ensures SameEntry(Values(k, occ)[i], Values(k, occ')[i]) {
      SameScore(k, occ, occ', FirstSeen(occ)[i]);
      assert Mentions(occ, FirstSeen(occ)[i]) && Mentions(occ', FirstSeen(occ')[i]) by {
        FirstSeenIsDistinct(occ);
        FirstSeenIsDistinct(occ');
      }
      SameTextAndDoc(occ, occ', FirstSeen(occ)[i]);
    }
  }

  lemma {:induction false} SameInsert(e: Entry, e': Entry, s: seq<Entry>, s': seq<Entry>)
    requires SameEntry(e, e') && SameEntries(s, s')
    ensures SameEntries(Insert(e, s), Insert(e', s'))
    decreases |s|
  {
    if s != [] {
      assert SameEntry(s[0], s'[0]);
      assert s[0].score == s'[0].score && e.score == e'.score;
      if s[0].score > e.score {
        SameInsert(e, e', s[1..], s'[1..]);
      }
    }
  }

  lemma {:induction false} SameSort(s: seq<Entry>, s': seq<Entry>)
    requires SameEntries(s, s')
    ensures SameEntries(SortDesc(s), SortDesc(s'))
    decreases |s|
  {
    if s != [] {
      SameSort(s[1..], s'[1..]);
      SameInsert(s[0], s'[0], SortDesc(s[1..]), SortDesc(s'[1..]));
    }
  }

  predicate SameFused(h: Fused, h': Fused) {
    h.(sources := map[]) == h'.(sources := map[]) && SameSources(h.sources, h'.sources)
  }

  /** The fused list depends on the places of the chunks only, not on their raw scores: only the raw
      scores reported as sources can differ. */
  lemma {:induction false} RawScoresDoNotRank(k: nat, lists: seq<Ranking>, lists': seq<Ranking>, topK: nat)
    requires SameRankings(lists, lists')
    ensures var hits, hits' := Fuse(k, lists, topK), Fuse(k, lists', topK);
      |hits| == |hits'| && forall i :: 0 <= i < |hits| ==> SameFused(hits[i], hits'[i])
  {
    SameOccurrencesOf(lists, lists');
    SameValues(k, Occurrences(lists), Occurrences(lists'));
    SameSort(Values(k, Occurrences(lists)), Values(k, Occurrences(lists')));
  }

  /** Weights change neither which chunks are returned, nor their order, nor their scores. */
  lemma {:induction false} WeightsDoNotRank(k: nat, lists: seq<Ranking>, weights: Option<Weights>, topK: nat)
    ensures var hits, plain := Fuse(k, Reweigh(lists, weights), topK), Fuse(k, lists, topK);
      |hits| == |plain| && forall i :: 0 <= i < |hits| ==> SameFused(hits[i], plain[i])
  {
    assert forall i :: 0 <= i < |lists| ==> SameRanking(Reweigh(lists, weights)[i], lists[i]);
    RawScoresDoNotRank(k, Reweigh(lists, weights), lists, topK);
  }

  // ---------------------------------------------------------------- the operations

  lemma {:induction false} OrderedEntries(merged: map<ChunkUuid, Entry>, order: seq<ChunkUuid>,
      occ: seq<Occurrence>, k: nat)
    requires Represents(merged, order, occ, k)
    ensures forall i :: 0 <= i < |order| ==> order[i] in merged
    ensures |Values(k, occ)| == |order| && forall i :: 0 <= i < |order| ==> Values(k, occ)[i] == merged[order[i]]
  {
    FirstSeenIsDistinct(occ);
  }

  method WeightResults(lists: seq<Ranking>, weights: Option<Weights>) returns (weighted: seq<Ranking>)
    ensures weighted == Reweigh(lists, weights)
  {
    weighted := [];
    for i := 0 to |lists|
      invariant |weighted| == i && forall m :: 0 <= m < i ==> weighted[m] == Reweigh(lists, weights)[m]
    {
      var weight, hits, scaled: seq<Hit> := Weight(weights, lists[i].kind), lists[i].hits, [];
      for j := 0 to |hits|
        invariant |scaled| == j && forall m :: 0 <= m < j ==> scaled[m] == Scale(hits, weight)[m]
      {
        scaled := scaled + [Hit(hits[j].chunkUuid, hits[j].docUuid, hits[j].score * weight, hits[j].text)];
      }
      assert scaled == Scale(hits, weight);
      weighted := weighted + [Ranking(lists[i].kind, scaled)];
    }
  }

  method MergeSearchResults(lists: seq<Ranking>, topK: nat, weights: Option<Weights>, k: nat)
    returns (hits: seq<Fused>)
    ensures hits == Fuse(k, Reweigh(lists, weights), topK)
  {
    var weighted := WeightResults(lists, weights);
    var merged, order := CalculateRrfScores(weighted, k);
    OrderedEntries(merged, order, Occurrences(weighted), k);
    var values := seq(|order|, i requires 0 <= i < |order| && order[i] in merged => merged[order[i]]);
    assert values == Values(k, Occurrences(weighted));
    hits := ConvertTop(SortDesc(values), topK);
  }

  method ConvertTop(sorted: seq<Entry>, topK: nat) returns (hits: seq<Fused>)
    ensures hits == Take(ToHits(sorted), topK)
  {
    var top := Take(sorted, topK);
    hits := [];
    for i := 0 to |top|
      invariant |hits| == i && forall m :: 0 <= m < i ==> hits[m] == ToHit(top[m])
    {
      var e := top[i];
      hits := hits + [Fused(e.chunkUuid, e.docUuid, e.score, 1.0 - e.score, e.text, e.sources)];
    }
    TakeHits(sorted, topK, hits);
  }

  lemma {:induction false} TakeHits(s: seq<Entry>, topK: nat, hits: seq<Fused>)
    requires hits == ToHits(Take(s, topK))
    ensures hits == Take(ToHits(s), topK)
  {
  }

  /** The search types asked for, by default all three stores, or those that have a weight. */
  function Asked(requested: seq<SearchType>, weights: Option<Weights>): set<SearchType> {
    if requested != [] then set t | t in requested
    else if weights.None? then {Dense, Sparse, Graph}
    else weights.value.Keys
  }

  function Answer(kind: SearchType, asked: set<SearchType>, answers: SearchType -> Option<seq<Hit>>): seq<Ranking> {
    if kind in asked && answers(kind).Some? then [Ranking(kind, answers(kind).value)] else []
  }

  /** The answers of the stores that were asked and did not raise, always in this order. */
  function Answered(asked: set<SearchType>, answers: SearchType -> Option<seq<Hit>>): seq<Ranking> {
    Answer(Dense, asked, answers) + Answer(Sparse, asked, answers) + Answer(Graph, asked, answers)
  }

  function Place(kind: SearchType): nat {
    match kind
    case Dense => 0
    case Sparse => 1
    case Graph => 2
    case Hybrid => 3
  }

  /** There is one ranking for every store asked that did not raise, holding its answer, dense before
      sparse before graph. */
  lemma {:induction false} AnsweredTypes(asked: set<SearchType>, answers: SearchType -> Option<seq<Hit>>)
    ensures var lists := Answered(asked, answers);
      && (forall t :: (exists i :: 0 <= i < |lists| && lists[i].kind == t) <==>
        t != Hybrid && t in asked && answers(t).Some?)
      && (forall i :: 0 <= i < |lists| ==> answers(lists[i].kind) == Some(lists[i].hits))
      && (forall i, j :: 0 <= i < j < |lists| ==> Place(lists[i].kind) < Place(lists[j].kind))
  {
    var lists := Answered(asked, answers);
    var dense, sparse := Answer(Dense, asked, answers), Answer(Sparse, asked, answers);
    var graph := Answer(Graph, asked, answers);
    assert dense != [] ==> lists[0] == dense[0];
    assert sparse != [] ==> lists[|dense|] == sparse[0];
    assert graph != [] ==> lists[|dense| + |sparse|] == graph[0];
  }

  /** Without weights the raw scores are fused as found. */
  lemma {:induction false} NoWeightsNoChange(lists: seq<Ranking>)
    ensures Reweigh(lists, None) == lists
  {
    forall m | 0 <= m < |lists| ensures Reweigh(lists, None)[m] == lists[m] {
      assert Scale(lists[m].hits, 1.0) == lists[m].hits;
    }
  }

  lemma {:induction false} LastFoundScaled(hits: seq<Hit>, weight: real, c: ChunkUuid, i: int)
    requires LastFound(hits, c, i)
    ensures LastFound(Scale(hits, weight), c, i)
  {
    forall j | j > i ensures !Found(Scale(hits, weight), c, j) {
      assert !Found(hits, c, j);
    }
  }

  /** The source of a search type reports the raw score found, times the weight of that type if it has
      one. */
  lemma {:induction false} SourcesReportWeighted(
    lists: seq<Ranking>, weights: Option<Weights>, c: ChunkUuid, m: nat, i: nat)
    requires DistinctKinds(lists) && m < |lists| && LastFound(lists[m].hits, c, i)
    ensures var sources, t := SourcesOf(Occurrences(Reweigh(lists, weights)), c), lists[m].kind;
      var weight := if weights.Some? && t in weights.value then weights.value[t] else 1.0;
      t in sources && sources[t] == Source(lists[m].hits[i].score * weight, i + 1)
  {
    var weight, hits := Weight(weights, lists[m].kind), lists[m].hits;
    LastFoundScaled(hits, weight, c, i);
    SourceOfHit(Reweigh(lists, weights), c, m, Scale(hits, weight), i);
    ScaledScore(hits, weight, i);
  }

  lemma {:induction false} ScaledScore(hits: seq<Hit>, weight: real, i: int)
    requires 0 <= i < |hits|
    ensures Scale(hits, weight)[i].score == hits[i].score * weight
  {
  }

  lemma {:induction false} SourceOfHit(lists: seq<Ranking>, c: ChunkUuid, m: nat, hits: seq<Hit>, i: int)
    requires DistinctKinds(lists) && m < |lists| && hits == lists[m].hits && LastFound(hits, c, i)
    ensures var sources, t := SourcesOf(Occurrences(lists), c), lists[m].kind;
      t in sources && sources[t] == Source(hits[i].score, i + 1)
  {
    SourcesAreRanks(lists, c, m);
    assert Found(hits, c, i);
  }

  lemma {:induction false} UsedTypes(
    asked: set<SearchType>, answers: SearchType -> Option<seq<Hit>>, used: seq<SearchType>, t: SearchType)
    requires var lists := Answered(asked, answers);
      |used| == |lists| && forall i :: 0 <= i < |used| ==> used[i] == lists[i].kind
    ensures t in used <==> t != Hybrid && t in asked && answers(t).Some?
  {
    AnsweredTypes(asked, answers);
  }

  /** A raised search is an answer None.  Without weights the call is a plain unified search; empty
      weights stand for the defaults. */
  method Search(requested: seq<SearchType>, answers: SearchType -> Option<seq<Hit>>, weights: Option<Weights>,
                topK: nat, minScore: real)
    returns (hits: seq<Fused>, used: seq<SearchType>)
    ensures forall t :: t in used <==>
      && t != Hybrid && answers(t).Some?
      && (if requested != [] then t in requested else weights.None? || weights.value == map[] || t in weights.value)
    ensures var defaults := map[Dense := 1.0, Sparse := 0.8, Graph := 0.6];
      var effective := if weights == Some(map[]) then Some(defaults) else weights;
      var lists := Answered(Asked(requested, effective), answers);
      && hits == MinScore(Fuse(60, Reweigh(lists, effective), topK), minScore)
      && |used| == |lists| && forall i :: 0 <= i < |used| ==> used[i] == lists[i].kind
  {
    var effective := if weights == Some(map[]) then Some(DEFAULT_WEIGHTS) else weights;
    var asked := Asked(requested, effective);
    var lists: seq<Ranking> := [];
    used := [];
    var tasks := [Dense, Sparse, Graph];
    for i := 0 to 3
      invariant lists == if i == 0 then [] else if i == 1 then Answer(Dense, asked, answers)
        else if i == 2 then Answer(Dense, asked, answers) + Answer(Sparse, asked, answers)
        else Answered(asked, answers)
      invariant |used| == |lists| && forall j :: 0 <= j < |used| ==> used[j] == lists[j].kind
    {
      if tasks[i] in asked {
        match answers(tasks[i]) {
          case None =>
          case Some(found) =>
            lists := lists + [Ranking(tasks[i], found)];
            used := used + [tasks[i]];
        }
      }
    }
    assert forall t :: t in used <==> t != Hybrid && t in asked && answers(t).Some? by {
      forall t ensures t in used <==> t != Hybrid && t in asked && answers(t).Some? {
        UsedTypes(asked, answers, used, t);
      }
    }
    hits := MergeSearchResults(lists, topK, effective, 60);
    if minScore > 0.0 {
      hits := AtLeast(hits, minScore);
    }
  }
}
