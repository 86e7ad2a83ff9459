/** The merged results as a ranked list: scores, order, top-k, weights and the score threshold. */
module FusedRanking {
  import opened Stores
  import opened RankFusion

  // ---------------------------------------------------------------- scores

  /** What one ranking contributes to the score of c. */
  function ListScore(k: nat, hits: seq<Hit>, c: ChunkUuid): real {
    if hits == [] then 0.0 else
      var n := |hits| - 1;
      ListScore(k, hits[..n], c) + if hits[n].chunkUuid == c then Contribution(k, n) else 0.0
  }

  function SumOver(k: nat, lists: seq<Ranking>, c: ChunkUuid): real {
    if lists == [] then 0.0 else ListScore(k, lists[0].hits, c) + SumOver(k, lists[1..], c)
  }

  lemma {:induction false} SumOfConcat(k: nat, a: seq<Ranking>, b: seq<Ranking>, c: ChunkUuid)
    ensures SumOver(k, a + b, c) == SumOver(k, a, c) + SumOver(k, b, c)
  {
    if a == [] {
      assert a + b == b;
    } else {
      assert (a + b)[1..] == a[1..] + b;
      SumOfConcat(k, a[1..], b, c);
    }
  }

  lemma {:induction false} ScoreOfRanking(k: nat, occ: seq<Occurrence>, r: Ranking, n: nat, c: ChunkUuid)
    requires n <= |r.hits|
    ensures Score(k, occ + Enumerated(r)[..n], c) == Score(k, occ, c) + ListScore(k, r.hits[..n], c)
    decreases n
  {
    if n == 0 {
      assert occ + Enumerated(r)[..n] == occ;
    } else {
      ScoreOfRanking(k, occ, r, n - 1, c);
      var o := Occurrence(r.kind, n - 1, r.hits[n - 1]);
      assert occ + Enumerated(r)[..n] == occ + Enumerated(r)[..n - 1] + [o];
      ScoreSnoc(k, occ + Enumerated(r)[..n - 1], o, c);
      assert r.hits[..n] == r.hits[..n - 1] + [r.hits[n - 1]];
      ListScoreSnoc(k, r.hits[..n - 1], r.hits[n - 1], c);
    }
  }

  lemma {:induction false} ScoreSnoc(k: nat, occ: seq<Occurrence>, o: Occurrence, c: ChunkUuid)
    ensures Score(k, occ + [o], c) ==
      Score(k, occ, c) + if o.hit.chunkUuid == c then Contribution(k, o.index) else 0.0
  {
    assert (occ + [o])[..|occ|] == occ;
  }

  lemma {:induction false} ListScoreSnoc(k: nat, hits: seq<Hit>, h: Hit, c: ChunkUuid)
    ensures ListScore(k, hits + [h], c) ==
      ListScore(k, hits, c) + if h.chunkUuid == c then Contribution(k, |hits|) else 0.0
  {
    assert (hits + [h])[..|hits|] == hits;
  }

  /** The accumulated score is the sum of 1 / (k + rank) over all rankings. */
  lemma {:induction false} ScoreIsSum(k: nat, lists: seq<Ranking>, c: ChunkUuid)
    ensures Score(k, Occurrences(lists), c) == SumOver(k, lists, c)
    ensures MeetsFormula(k, Occurrences(lists), c, SumOver(k, lists, c))
    decreases |lists|
  {
    ScoreMeetsFormula(k, Occurrences(lists), c);
    if lists != [] {
      var n := |lists| - 1;
      var last := lists[n];
      ScoreIsSum(k, lists[..n], c);
      ScoreOfRanking(k, Occurrences(lists[..n]), last, |last.hits|, c);
      assert Enumerated(last)[..|last.hits|] == Enumerated(last);
      assert last.hits[..|last.hits|] == last.hits;
      SumSnoc(k, lists, c);
    }
  }

  lemma {:induction false} SumSnoc(k: nat, lists: seq<Ranking>, c: ChunkUuid)
    requires lists != []
    ensures var n := |lists| - 1;
      SumOver(k, lists, c) == SumOver(k, lists[..n], c) + ListScore(k, lists[n].hits, c)
  {
    var n := |lists| - 1;
    SumOfConcat(k, lists[..n], [lists[n]], c);
    assert lists == lists[..n] + [lists[n]];
    assert [lists[n]][1..] == [];
  }

  lemma {:induction false} SumWithout(k: nat, lists: seq<Ranking>, i: nat, c: ChunkUuid)
    requires i < |lists|
    ensures SumOver(k, lists, c) == ListScore(k, lists[i].hits, c) + SumOver(k, lists[..i] + lists[i + 1..], c)
  {
    var tail := [lists[i]] + lists[i + 1..];
    assert lists == lists[..i] + tail;
    SumOfConcat(k, lists[..i], tail, c);
    SumOfConcat(k, lists[..i], lists[i + 1..], c);
    assert tail[1..] == lists[i + 1..];
  }

  lemma {:induction false} MultisetWithout(lists: seq<Ranking>, i: nat)
    requires i < |lists|
    ensures multiset(lists[..i] + lists[i + 1..]) == multiset(lists) - multiset{lists[i]}
  {
    assert lists == lists[..i] + ([lists[i]] + lists[i + 1..]);
  }

  lemma {:induction false} MultisetTail(lists: seq<Ranking>)
    requires lists != []
    ensures multiset(lists[1..]) == multiset(lists) - multiset{lists[0]}
  {
    assert lists == [lists[0]] + lists[1..];
  }

  lemma {:induction false} Position(lists: seq<Ranking>, r: Ranking) returns (i: nat)
    requires r in lists
    ensures i < |lists| && lists[i] == r
  {
    i :| 0 <= i < |lists| && lists[i] == r;
  }

  /** Where the first ranking of a list stands in a permutation of it, and what remains without it. */
  lemma {:induction false} WithoutFirst(lists: seq<Ranking>, lists': seq<Ranking>) returns (i: nat)
    requires lists != [] && multiset(lists) == multiset(lists')
    ensures i < |lists'| && lists'[i] == lists[0]
    ensures multiset(lists[1..]) == multiset(lists'[..i] + lists'[i + 1..])
  {
    assert lists[0] in multiset(lists');
    i := Position(lists', lists[0]);
    MultisetTail(lists);
    MultisetWithout(lists', i);
  }

  lemma {:induction false} SumPermutes(k: nat, lists: seq<Ranking>, lists': seq<Ranking>, c: ChunkUuid)
    requires multiset(lists) == multiset(lists')
    ensures SumOver(k, lists, c) == SumOver(k, lists', c)
    decreases |lists|
  {
    if lists == [] {
      assert |lists'| == |multiset(lists')| == |multiset(lists)|;
    } else {
      var i := WithoutFirst(lists, lists');
      SumPermutes(k, lists[1..], lists'[..i] + lists'[i + 1..], c);
      SumWithout(k, lists', i, c);
    }
  }

  predicate Lists(lists: seq<Ranking>, c: ChunkUuid) {
    exists r, i :: r in lists && 0 <= i < |r.hits| && r.hits[i].chunkUuid == c
  }

  lemma {:induction false} MentionsConcat(a: seq<Occurrence>, b: seq<Occurrence>, c: ChunkUuid)
    ensures Mentions(a + b, c) <==> Mentions(a, c) || Mentions(b, c)
  {
    if i :| 0 <= i < |a| && a[i].hit.chunkUuid == c {
      assert (a + b)[i].hit.chunkUuid == c;
    }
    if i :| 0 <= i < |b| && b[i].hit.chunkUuid == c {
      assert (a + b)[|a| + i].hit.chunkUuid == c;
    }
  }

  lemma {:induction false} MentionsRanking(r: Ranking, c: ChunkUuid)
    ensures Mentions(Enumerated(r), c) <==> exists i :: 0 <= i < |r.hits| && r.hits[i].chunkUuid == c
  {
  }

  lemma {:induction false} ListsSnoc(lists: seq<Ranking>, c: ChunkUuid)
    requires lists != []
    ensures var n := |lists| - 1;
      Lists(lists, c) <==>
      Lists(lists[..n], c) || exists i :: 0 <= i < |lists[n].hits| && lists[n].hits[i].chunkUuid == c
  {
  }

  lemma {:induction false} MentionedIsListed(lists: seq<Ranking>, c: ChunkUuid)
    ensures Mentions(Occurrences(lists), c) <==> Lists(lists, c)
    decreases |lists|
  {
    if lists != [] {
      var n := |lists| - 1;
      MentionedIsListed(lists[..n], c);
      MentionsConcat(Occurrences(lists[..n]), Enumerated(lists[n]), c);
      MentionsRanking(lists[n], c);
      ListsSnoc(lists, c);
    }
  }

  /** The merged dictionary has exactly one entry per distinct chunk of the rankings, and its score is
      the sum of 1 / (k + rank) over all its occurrences, whatever the order of the search types. */
  lemma {:induction false} MergedMeetsFormula(
    k: nat, lists: seq<Ranking>, shuffled: seq<Ranking>, merged: map<ChunkUuid, Entry>, order: seq<ChunkUuid>)
    requires multiset(lists) == multiset(shuffled)
    requires Represents(merged, order, Occurrences(shuffled), k)
    ensures forall c :: c in merged <==> Lists(lists, c)
    ensures forall c :: c in merged ==> merged[c].chunkUuid == c && merged[c].score == SumOver(k, lists, c)
    ensures forall c :: c in merged ==> MeetsFormula(k, Occurrences(lists), c, merged[c].score)
    ensures forall c :: c in order <==> c in merged
    ensures NoRepeats(order)
  {
    FirstSeenIsDistinct(Occurrences(shuffled));
    forall r ensures r in lists <==> r in shuffled {
      assert r in multiset(lists) <==> r in multiset(shuffled);
    }
    forall c
      ensures c in merged <==> Lists(lists, c)
      ensures Score(k, Occurrences(shuffled), c) == SumOver(k, lists, c)
      ensures MeetsFormula(k, Occurrences(lists), c, SumOver(k, lists, c))
    {
      MentionedIsListed(shuffled, c);
      ScoreIsSum(k, shuffled, c);
      ScoreIsSum(k, lists, c);
      SumPermutes(k, lists, shuffled, c);
    }
  }

  /** The hit at place i of ranking m is mentioned after all hits of the rankings before, at this place. */
  lemma {:induction false} OccurrenceAt(lists: seq<Ranking>, m: nat, i: nat)
    requires m < |lists| && i < |lists[m].hits|
    ensures var p := |Occurrences(lists[..m])| + i;
      p < |Occurrences(lists)| && Occurrences(lists)[p] == Occurrence(lists[m].kind, i, lists[m].hits[i])
    decreases |lists|
  {
    var n := |lists| - 1;
    if m < n {
      OccurrenceAt(lists[..n], m, i);
      assert lists[..n][..m] == lists[..m];
    }
  }

  /** A chunk found once, at place i of ranking m, has the score 1 / (k + i + 1). */
  lemma {:induction false} FoundOnce(k: nat, lists: seq<Ranking>, c: ChunkUuid, m: nat, i: nat)
    requires m < |lists| && Found(lists[m].hits, c, i)
    requires forall m', i' :: 0 <= m' < |lists| && Found(lists[m'].hits, c, i') ==> m' == m && i' == i
    ensures IsInverse(SumOver(k, lists, c), k + i + 1)
  {
    var rest := lists[..m] + lists[m + 1..];
    SumWithout(k, lists, m, c);
    ListScoreAt(k, lists[m].hits, c, i);
    Reciprocal(k, i);
    forall n | 0 <= n < |rest| ensures forall j :: !Found(rest[n].hits, c, j) {
      assert rest[n] == lists[if n < m then n else n + 1];
    }
    NowhereFound(k, rest, c);
  }

  lemma {:induction false} NowhereFound(k: nat, lists: seq<Ranking>, c: ChunkUuid)
    requires forall n, j :: 0 <= n < |lists| ==> !Found(lists[n].hits, c, j)
    ensures SumOver(k, lists, c) == 0.0
    decreases |lists|
  {
    if lists != [] {
      ListScoreAt(k, lists[0].hits, c, -1);
      NowhereFound(k, lists[1..], c);
    }
  }

  // ---------------------------------------------------------------- rankings without repeats

  predicate DistinctHits(hits: seq<Hit>) {
    forall i, j :: 0 <= i < j < |hits| ==> hits[i].chunkUuid != hits[j].chunkUuid
  }

  predicate AllDistinct(lists: seq<Ranking>) {
    forall r :: r in lists ==> DistinctHits(r.hits)
  }

  predicate Found(hits: seq<Hit>, c: ChunkUuid, i: int) {
    0 <= i < |hits| && hits[i].chunkUuid == c
  }

  // ---------------------------------------------------------------- what else an entry holds

  predicate IsOf(occ: seq<Occurrence>, c: ChunkUuid, i: int) {
    0 <= i < |occ| && occ[i].hit.chunkUuid == c
  }

  /** The document id of an entry is the one of the first mention of the chunk. */
  lemma {:induction false} DocIsFirst(occ: seq<Occurrence>, c: ChunkUuid) returns (i: nat)
    requires Mentions(occ, c)
    ensures IsOf(occ, c, i) && DocOf(occ, c) == occ[i].hit.docUuid
    ensures forall j :: j < i ==> !IsOf(occ, c, j)
    decreases |occ|
  {
    var n := |occ| - 1;
    if Mentions(occ[..n], c) {
      i := DocIsFirst(occ[..n], c);
      forall j | j < i ensures !IsOf(occ, c, j) {
        assert !IsOf(occ[..n], c, j);
      }
    } else {
      i := n;
      forall j | j < n ensures !IsOf(occ, c, j) {
        assert 0 <= j < n ==> occ[..n][j] == occ[j];
      }
    }
  }

  /** The text of an entry is the first one given for the chunk that is not empty; if all are empty, it
      is the first. */
  lemma {:induction false} TextIsFirstGiven(occ: seq<Occurrence>, c: ChunkUuid) returns (i: nat)
    requires Mentions(occ, c)
    ensures IsOf(occ, c, i) && TextOf(occ, c) == occ[i].hit.text
    ensures Truthy(TextOf(occ, c)) ==> forall j :: j < i && IsOf(occ, c, j) ==> !Truthy(occ[j].hit.text)
    ensures !Truthy(TextOf(occ, c)) ==>
      (forall j :: IsOf(occ, c, j) ==> !Truthy(occ[j].hit.text)) && forall j :: j < i ==> !IsOf(occ, c, j)
    decreases |occ|
  {
    var n := |occ| - 1;
    var before := occ[..n];
    assert forall j :: 0 <= j < n ==> before[j] == occ[j];
    assert forall j :: j < n ==> (IsOf(before, c, j) <==> IsOf(occ, c, j));
    if !Mentions(before, c) {
      assert forall j :: j < n ==> !IsOf(occ, c, j);
      i := n;
    } else {
      i := TextIsFirstGiven(before, c);
      if IsOf(occ, c, n) && !Truthy(TextOf(before, c)) && Truthy(occ[n].hit.text) {
        i := n;
      }
    }
  }

  predicate DistinctKinds(lists: seq<Ranking>) {
    forall i, j :: 0 <= i < j < |lists| ==> lists[i].kind != lists[j].kind
  }

  /** The rank and score of c in a ranking, the last one if it repeats. */
  function SourceIn(hits: seq<Hit>, c: ChunkUuid): Option<Source> {
    if hits == [] then None else
      var n := |hits| - 1;
      if hits[n].chunkUuid == c then Some(Source(hits[n].score, n + 1)) else SourceIn(hits[..n], c)
  }

  function WithSource(m: map<SearchType, Source>, t: SearchType, source: Option<Source>): map<SearchType, Source> {
    if source.Some? then m[t := source.value] else m
  }

  lemma {:induction false} SourcesOfRanking(occ: seq<Occurrence>, r: Ranking, n: nat, c: ChunkUuid)
    requires n <= |r.hits|
    ensures SourcesOf(occ + Enumerated(r)[..n], c) == WithSource(SourcesOf(occ, c), r.kind, SourceIn(r.hits[..n], c))
    decreases n
  {
    if n == 0 {
      assert occ + Enumerated(r)[..0] == occ;
    } else {
      var o := Occurrence(r.kind, n - 1, r.hits[n - 1]);
      var before := occ + Enumerated(r)[..n - 1];
      assert occ + Enumerated(r)[..n] == before + [o];
      SourcesOfMore(before, o, c);
      SourcesOfRanking(occ, r, n - 1, c);
      OneMoreHit(SourcesOf(occ, c), SourcesOf(before, c), r, n, c);
    }
  }

  lemma {:induction false} OneMoreHit(
    m: map<SearchType, Source>, m': map<SearchType, Source>, r: Ranking, n: nat, c: ChunkUuid)
    requires 0 < n <= |r.hits| && m' == WithSource(m, r.kind, SourceIn(r.hits[..n - 1], c))
    ensures WithSource(m, r.kind, SourceIn(r.hits[..n], c)) ==
      if r.hits[n - 1].chunkUuid == c then m'[r.kind := Source(r.hits[n - 1].score, n)] else m'
  {
    assert r.hits[..n][..n - 1] == r.hits[..n - 1];
    Overwrites(m, r.kind, SourceIn(r.hits[..n - 1], c), Source(r.hits[n - 1].score, n));
  }

  lemma {:induction false} Overwrites(m: map<SearchType, Source>, t: SearchType, before: Option<Source>, after: Source)
    ensures WithSource(m, t, before)[t := after] == WithSource(m, t, Some(after))
  {
  }

  lemma {:induction false} SourcesOfMore(occ: seq<Occurrence>, o: Occurrence, c: ChunkUuid)
    ensures SourcesOf(occ + [o], c) ==
      if o.hit.chunkUuid == c then SourcesOf(occ, c)[o.kind := Source(o.hit.score, o.index + 1)] else SourcesOf(occ, c)
  {
    assert (occ + [o])[..|occ|] == occ;
  }

  lemma {:induction false} SourcesSnoc(lists: seq<Ranking>, c: ChunkUuid)
    requires lists != []
    ensures var n := |lists| - 1;
      SourcesOf(Occurrences(lists), c) ==
      WithSource(SourcesOf(Occurrences(lists[..n]), c), lists[n].kind, SourceIn(lists[n].hits, c))
  {
    var last := lists[|lists| - 1];
    SourcesOfRanking(Occurrences(lists[..|lists| - 1]), last, |last.hits|, c);
    assert Enumerated(last)[..|last.hits|] == Enumerated(last) && last.hits[..|last.hits|] == last.hits;
  }

  ghost predicate LastFound(hits: seq<Hit>, c: ChunkUuid, i: int) {
    Found(hits, c, i) && forall j :: j > i ==> !Found(hits, c, j)
  }

  /** The sources of an entry: a search type is among them exactly if it found the chunk, and then with
      the rank and the raw score the chunk has there, the last time if it is repeated. */
  lemma {:induction false} SourcesAreRanks(lists: seq<Ranking>, c: ChunkUuid, m: nat)
    requires DistinctKinds(lists) && m < |lists|
    ensures var sources, t, hits := SourcesOf(Occurrences(lists), c), lists[m].kind, lists[m].hits;
      && (t in sources <==> exists i :: Found(hits, c, i))
      && (forall i :: LastFound(hits, c, i) && t in sources ==> sources[t] == Source(hits[i].score, i + 1))
    decreases |lists|
  {
    var n := |lists| - 1;
    SourcesSnoc(lists, c);
    if m < n {
      assert lists[m].kind != lists[n].kind;
      SourcesAreRanks(lists[..n], c, m);
    } else {
      NoOtherSource(lists[..n], c, lists[n].kind);
      SourceIfFound(lists[n].hits, c);
      forall i | LastFound(lists[n].hits, c, i)
        ensures SourceIn(lists[n].hits, c) == Some(Source(lists[n].hits[i].score, i + 1))
      {
        SourceIsLast(lists[n].hits, c, i);
      }
    }
  }

  lemma {:induction false} SourceIfFound(hits: seq<Hit>, c: ChunkUuid)
    ensures SourceIn(hits, c).Some? <==> exists i :: Found(hits, c, i)
    decreases |hits|
  {
    if hits != [] {
      var n := |hits| - 1;
      SourceIfFound(hits[..n], c);
      if i :| Found(hits, c, i) {
        assert i == n || Found(hits[..n], c, i);
      }
      if i :| Found(hits[..n], c, i) {
        assert Found(hits, c, i);
      }
      if hits[n].chunkUuid == c {
        assert Found(hits, c, n);
      }
    }
  }

  lemma {:induction false} SourceIsLast(hits: seq<Hit>, c: ChunkUuid, i: int)
    requires LastFound(hits, c, i)
    ensures SourceIn(hits, c) == Some(Source(hits[i].score, i + 1))
    decreases |hits|
  {
    var n := |hits| - 1;
    assert !Found(hits, c, n) || i == n;
    if i < n {
      forall j | j > i ensures !Found(hits[..n], c, j) {
        assert !Found(hits, c, j);
      }
      SourceIsLast(hits[..n], c, i);
    }
  }

  lemma {:induction false} NoOtherSource(lists: seq<Ranking>, c: ChunkUuid, t: SearchType)
    requires forall i :: 0 <= i < |lists| ==> lists[i].kind != t
    ensures t !in SourcesOf(Occurrences(lists), c)
    decreases |lists|
  {
    if lists != [] {
      SourcesSnoc(lists, c);
      NoOtherSource(lists[..|lists| - 1], c, t);
    }
  }

  // ---------------------------------------------------------------- outranking

  /** How often a ranking names c. */
  function Count(hits: seq<Hit>, c: ChunkUuid): nat {
    if hits == [] then 0 else
      var n := |hits| - 1;
      Count(hits[..n], c) + if hits[n].chunkUuid == c then 1 else 0
  }

  /** Above every place of b, a is named more often than b. */
  ghost predicate Outranks(hits: seq<Hit>, a: ChunkUuid, b: ChunkUuid) {
    forall j :: Found(hits, b, j) ==> Count(hits[..j], a) > Count(hits[..j], b)
  }

  lemma {:induction false} CountIfFound(hits: seq<Hit>, c: ChunkUuid)
    ensures Count(hits, c) > 0 <==> exists i :: Found(hits, c, i)
    decreases |hits|
  {
    if hits != [] {
      var n := |hits| - 1;
      CountIfFound(hits[..n], c);
      if i :| Found(hits, c, i) {
        assert i == n || Found(hits[..n], c, i);
      }
      if i :| Found(hits[..n], c, i) {
        assert Found(hits, c, i);
      }
      assert hits[n].chunkUuid == c ==> Found(hits, c, n);
    }
  }

  /** In a ranking without repeats a outranks b if and only if a stands above b wherever b stands. */
  lemma {:induction false} OutranksIfAbove(hits: seq<Hit>, a: ChunkUuid, b: ChunkUuid)
    requires DistinctHits(hits)
    ensures Outranks(hits, a, b) <==> forall j :: Found(hits, b, j) ==> exists i :: i < j && Found(hits, a, i)
  {
    forall j | Found(hits, b, j)
      ensures Count(hits[..j], a) > Count(hits[..j], b) <==> exists i :: i < j && Found(hits, a, i)
    {
      CountIfFound(hits[..j], a);
      CountIfFound(hits[..j], b);
      forall i ensures Found(hits[..j], a, i) <==> i < j && Found(hits, a, i) {
      }
      forall i ensures !Found(hits[..j], b, i) {
        assert 0 <= i < j ==> hits[..j][i] == hits[i];
      }
    }
  }

  lemma {:induction false} ListScoreAt(k: nat, hits: seq<Hit>, c: ChunkUuid, i: int)
    requires forall j :: Found(hits, c, j) ==> j == i
    ensures ListScore(k, hits, c) == if Found(hits, c, i) then Contribution(k, i) else 0.0
    decreases |hits|
  {
    if hits != [] {
      var n := |hits| - 1;
      assert forall j :: 0 <= j < n ==> hits[..n][j] == hits[j];
      assert forall j :: Found(hits[..n], c, j) <==> Found(hits, c, j) && j != n;
      assert Found(hits, c, n) ==> i == n;
      ListScoreAt(k, hits[..n], c, i);
    }
  }

  lemma {:induction false} ContributionFalls(k: nat, i: nat, j: nat)
    requires i < j
    ensures Contribution(k, i) > Contribution(k, j)
  {
  }

  lemma {:induction false} OutranksPrefix(hits: seq<Hit>, a: ChunkUuid, b: ChunkUuid)
    requires hits != [] && Outranks(hits, a, b)
    ensures var n := |hits| - 1;
      Outranks(hits[..n], a, b) && (hits[n].chunkUuid == b ==> Count(hits[..n], a) > Count(hits[..n], b))
  {
    var n := |hits| - 1;
    forall j | Found(hits[..n], b, j) ensures Count(hits[..n][..j], a) > Count(hits[..n][..j], b) {
      assert Found(hits, b, j) && hits[..n][..j] == hits[..j];
    }
    assert hits[n].chunkUuid == b ==> Found(hits, b, n);
  }

  /** m times x, by addition. */
  function Worth(m: nat, x: real): real {
    if m == 0 then 0.0 else Worth(m - 1, x) + x
  }

  lemma {:induction false} WorthFalls(m: nat, x: real, y: real)
    requires x > y >= 0.0
    ensures Worth(m, x) >= Worth(m, y) >= 0.0
  {
    if m > 0 {
      WorthFalls(m - 1, x, y);
    }
  }

  /** The lead of a over b in score is at least the lead in counts, at the contribution of the next place. */
  lemma {:induction false} ListLead(k: nat, hits: seq<Hit>, a: ChunkUuid, b: ChunkUuid)
    requires Outranks(hits, a, b)
    ensures var lead := Count(hits, a) - Count(hits, b);
      var diff := ListScore(k, hits, a) - ListScore(k, hits, b);
      lead >= 0 && diff >= Worth(lead, Contribution(k, |hits|)) >= 0.0 &&
      (Count(hits, a) > 0 ==> diff > Worth(lead, Contribution(k, |hits|)))
    decreases |hits|
  {
    if hits != [] {
      var n := |hits| - 1;
      OutranksPrefix(hits, a, b);
      ListLead(k, hits[..n], a, b);
      var x, y := Contribution(k, n), Contribution(k, n + 1);
      ContributionFalls(k, n, n + 1);
      var lead := Count(hits[..n], a) - Count(hits[..n], b);
      WorthFalls(lead, x, y);
      WorthFalls(lead + 1, x, y);
      if lead > 0 {
        WorthFalls(lead - 1, x, y);
      }
    }
  }

  lemma {:induction false} ListOrder(k: nat, hits: seq<Hit>, a: ChunkUuid, b: ChunkUuid)
    requires Outranks(hits, a, b)
    ensures ListScore(k, hits, a) >= ListScore(k, hits, b)
    ensures (exists j :: Found(hits, b, j)) ==> ListScore(k, hits, a) > ListScore(k, hits, b)
  {
    ListLead(k, hits, a, b);
    CountIfFound(hits, b);
  }

  lemma {:induction false} ListScoreNonNegative(k: nat, hits: seq<Hit>, c: ChunkUuid)
    ensures ListScore(k, hits, c) >= 0.0
  {
    if hits != [] {
      ListScoreNonNegative(k, hits[..|hits| - 1], c);
    }
  }

  lemma {:induction false} SumOrder(k: nat, lists: seq<Ranking>, a: ChunkUuid, b: ChunkUuid)
    requires forall r :: r in lists ==> Outranks(r.hits, a, b)
    ensures SumOver(k, lists, a) >= SumOver(k, lists, b)
    ensures Lists(lists, b) ==> SumOver(k, lists, a) > SumOver(k, lists, b)
    decreases |lists|
  {
    if lists != [] {
      var first := lists[0].hits;
      ListOrder(k, first, a, b);
      SumOrder(k, lists[1..], a, b);
      if Lists(lists, b) && !Lists(lists[1..], b) {
        var r, i :| r in lists && 0 <= i < |r.hits| && r.hits[i].chunkUuid == b;
        assert r !in lists[1..];
        assert r == lists[0] && Found(first, b, i);
      }
    }
  }

  lemma {:induction false} ListScoreBound(k: nat, hits: seq<Hit>, c: ChunkUuid)
    requires DistinctHits(hits)
    ensures 0.0 <= ListScore(k, hits, c) <= Contribution(k, 0)
  {
    ListScoreNonNegative(k, hits, c);
    if i :| Found(hits, c, i) {
      ListScoreAt(k, hits, c, i);
      if i > 0 {
        ContributionFalls(k, 0, i);
      }
    } else {
      ListScoreAt(k, hits, c, -1);
    }
  }

  lemma {:induction false} SumBound(k: nat, lists: seq<Ranking>, c: ChunkUuid)
    requires AllDistinct(lists)
    ensures SumOver(k, lists, c) <= |lists| as real * Contribution(k, 0)
    decreases |lists|
  {
    if lists != [] {
      ListScoreBound(k, lists[0].hits, c);
      SumBound(k, lists[1..], c);
      OneMore(|lists| - 1, Contribution(k, 0), ListScore(k, lists[0].hits, c), SumOver(k, lists[1..], c));
    }
  }

  lemma {:induction false} OneMore(n: nat, x: real, one: real, rest: real)
    requires one <= x && rest <= n as real * x
    ensures one + rest <= (n + 1) as real * x
  {
  }

  // ---------------------------------------------------------------- sorting

  /** Python's sorted(..., key=rrf_score, reverse=True): entries with equal scores keep their order. */
  function SortDesc(s: seq<Entry>): (r: seq<Entry>)
    ensures |r| == |s|
  {
    if s == [] then [] else Insert(s[0], SortDesc(s[1..]))
  }

  function Insert(e: Entry, s: seq<Entry>): (r: seq<Entry>)
    ensures |r| == |s| + 1
  {
    if s == [] || s[0].score <= e.score then [e] + s else [s[0]] + Insert(e, s[1..])
  }

  predicate Falling(s: seq<Entry>) {
    forall i, j :: 0 <= i < j < |s| ==> s[i].score >= s[j].score
  }

  /** The entries with a given score, in order. */
  function WithScore(s: seq<Entry>, x: real): seq<Entry> {
    if s == [] then [] else (if s[0].score == x then [s[0]] else []) + WithScore(s[1..], x)
  }

  lemma {:induction false} InsertPermutes(e: Entry, s: seq<Entry>)
    ensures multiset(Insert(e, s)) == multiset(s) + multiset{e}
  {
    if s != [] && s[0].score > e.score {
      InsertPermutes(e, s[1..]);
      assert s == [s[0]] + s[1..];
    }
  }

  lemma {:induction false} InsertFalls(e: Entry, s: seq<Entry>)
    requires Falling(s)
    ensures Falling(Insert(e, s))
  {
    if s != [] && s[0].score > e.score {
      InsertFalls(e, s[1..]);
      InsertPermutes(e, s[1..]);
      var r := Insert(e, s[1..]);
      forall i | 0 <= i < |r| ensures r[i].score <= s[0].score {
        assert r[i] in multiset(r);
        assert r[i] == e || r[i] in s[1..];
      }
    }
  }

  lemma {:induction false} WithScoreCons(e: Entry, s: seq<Entry>, x: real)
    ensures WithScore([e] + s, x) == if e.score == x then [e] + WithScore(s, x) else WithScore(s, x)
  {
    assert ([e] + s)[1..] == s;
  }

  lemma {:induction false} InsertIsStable(e: Entry, s: seq<Entry>, x: real)
    ensures WithScore(Insert(e, s), x) == if e.score == x then [e] + WithScore(s, x) else WithScore(s, x)
  {
    if s != [] && s[0].score > e.score {
      InsertIsStable(e, s[1..], x);
      WithScoreCons(s[0], Insert(e, s[1..]), x);
    } else {
      WithScoreCons(e, s, x);
    }
  }

  lemma {:induction false} SortIsStableSort(s: seq<Entry>)
    ensures Falling(SortDesc(s)) && multiset(SortDesc(s)) == multiset(s)
    ensures forall x :: WithScore(SortDesc(s), x) == WithScore(s, x)
  {
    if s != [] {
      var r := SortDesc(s[1..]);
      SortIsStableSort(s[1..]);
      InsertPermutes(s[0], r);
      InsertFalls(s[0], r);
      assert s == [s[0]] + s[1..];
      forall x ensures WithScore(SortDesc(s), x) == WithScore(s, x) {
        InsertIsStable(s[0], r, x);
      }
    }
  }

  // ---------------------------------------------------------------- the fused list

  function Values(k: nat, occ: seq<Occurrence>): (s: seq<Entry>)
    ensures |s| == |FirstSeen(occ)|
    ensures forall i :: 0 <= i < |s| ==>
      Mentions(occ, FirstSeen(occ)[i]) && s[i] == EntryOf(k, occ, FirstSeen(occ)[i])
  {
    FirstSeenIsDistinct(occ);
    var order := FirstSeen(occ);
    seq(|order|, i requires 0 <= i < |order| && Mentions(occ, order[i]) => EntryOf(k, occ, order[i]))
  }

  function ToHit(e: Entry): Fused {
    Fused(e.chunkUuid, e.docUuid, e.score, 1.0 - e.score, e.text, e.sources)
  }

  function ToHits(s: seq<Entry>): (hits: seq<Fused>)
    ensures |hits| == |s|
    ensures forall i :: 0 <= i < |hits| ==> hits[i] == ToHit(s[i])
  {
    seq(|s|, i requires 0 <= i < |s| => ToHit(s[i]))
  }

  function Ranked(k: nat, lists: seq<Ranking>): seq<Fused> {
    ToHits(SortDesc(Values(k, Occurrences(lists))))
  }

  function Take<T>(s: seq<T>, n: nat): seq<T> {
    if n < |s| then s[..n] else s
  }

  function Fuse(k: nat, lists: seq<Ranking>, topK: nat): seq<Fused> {
    Take(Ranked(k, lists), topK)
  }

  predicate At(hits: seq<Fused>, c: ChunkUuid, i: int) {
    0 <= i < |hits| && hits[i].chunkUuid == c
  }

  predicate FallingHits(hits: seq<Fused>) {
    forall i, j :: 0 <= i < j < |hits| ==> hits[i].score >= hits[j].score
  }

  lemma {:induction false} SortedEntries(k: nat, occ: seq<Occurrence>)
    ensures var sorted := SortDesc(Values(k, occ));
      && Falling(sorted)
      && (forall i :: 0 <= i < |sorted| ==>
        Mentions(occ, sorted[i].chunkUuid) && sorted[i] == EntryOf(k, occ, sorted[i].chunkUuid))
      && (forall c :: Mentions(occ, c) ==> exists i :: 0 <= i < |sorted| && sorted[i].chunkUuid == c)
  {
    var values := Values(k, occ);
    var sorted := SortDesc(values);
    SortIsStableSort(values);
    FirstSeenIsDistinct(occ);
    forall i | 0 <= i < |sorted|
      ensures Mentions(occ, sorted[i].chunkUuid) && sorted[i] == EntryOf(k, occ, sorted[i].chunkUuid)
    {
      assert sorted[i] in multiset(values);
    }
    forall c | Mentions(occ, c) ensures exists i :: 0 <= i < |sorted| && sorted[i].chunkUuid == c {
      assert c in FirstSeen(occ);
      var m :| 0 <= m < |FirstSeen(occ)| && FirstSeen(occ)[m] == c;
      assert values[m] in multiset(sorted);
    }
  }

  lemma {:induction false} RankedEntries(k: nat, lists: seq<Ranking>)
    ensures var hits := Ranked(k, lists);
      && FallingHits(hits)
      && (forall i :: 0 <= i < |hits| ==> hits[i].score == SumOver(k, lists, hits[i].chunkUuid))
      && (forall c :: Lists(lists, c) <==> exists i :: At(hits, c, i))
  {
    var occ := Occurrences(lists);
    var hits := Ranked(k, lists);
    SortedEntries(k, occ);
    forall i | 0 <= i < |hits| ensures hits[i].score == SumOver(k, lists, hits[i].chunkUuid) {
      ScoreIsSum(k, lists, hits[i].chunkUuid);
    }
    forall c ensures Lists(lists, c) <==> exists i :: At(hits, c, i) {
      MentionedIsListed(lists, c);
      if Mentions(occ, c) {
        var i :| 0 <= i < |hits| && SortDesc(Values(k, occ))[i].chunkUuid == c;
        assert At(hits, c, i);
      }
    }
  }

  /** The fused list is non-increasing in score, every score is the formula's, and a shorter list is a
      prefix of a longer one. */
  lemma {:induction false} FusedIsRanked(k: nat, lists: seq<Ranking>, topK: nat, more: nat)
    requires topK <= more
    ensures var hits := Fuse(k, lists, topK);
      && |hits| <= topK
      && hits <= Fuse(k, lists, more)
      && FallingHits(hits)
      && (forall i :: 0 <= i < |hits| ==>
        hits[i].score == SumOver(k, lists, hits[i].chunkUuid) && hits[i].distance == 1.0 - hits[i].score)
  {
    RankedEntries(k, lists);
  }

  // ---------------------------------------------------------------- which hits, and in which order

  lemma {:induction false} OncePerIndex(s: seq<Entry>, i: nat, j: nat)
    requires i < j < |s| && s[i] == s[j]
    ensures multiset(s)[s[i]] >= 2
  {
    assert s == s[..i] + [s[i]] + s[i + 1..j] + [s[j]] + s[j + 1..];
  }

  lemma {:induction false} TwiceHasIndices(s: seq<Entry>, e: Entry) returns (i: nat, j: nat)
    requires multiset(s)[e] >= 2
    ensures i < j < |s| && s[i] == e && s[j] == e
    decreases |s|
  {
    assert s == s[..|s| - 1] + [s[|s| - 1]];
    var n := |s| - 1;
    if s[n] == e {
      assert multiset(s[..n])[e] >= 1;
      assert e in s[..n];
      i :| 0 <= i < n && s[i] == e;
      j := n;
    } else {
      i, j := TwiceHasIndices(s[..n], e);
    }
  }

  lemma {:induction false} SortedDistinct(k: nat, occ: seq<Occurrence>, i: nat, j: nat)
    requires i < j < |SortDesc(Values(k, occ))|
    ensures SortDesc(Values(k, occ))[i].chunkUuid != SortDesc(Values(k, occ))[j].chunkUuid
  {
    var values, sorted := Values(k, occ), SortDesc(Values(k, occ));
    SortIsStableSort(values);
    SortedEntries(k, occ);
    if sorted[i].chunkUuid == sorted[j].chunkUuid {
      OncePerIndex(sorted, i, j);
      FirstSeenIsDistinct(occ);
      var a, b := TwiceHasIndices(values, sorted[i]);
      assert false;
    }
  }

  /** No chunk is twice in the output, and if there is room for more every chunk of the rankings is in it. */
  lemma {:induction false} FusedIsComplete(k: nat, lists: seq<Ranking>, topK: nat)
    ensures var hits := Fuse(k, lists, topK);
      && (forall i, j :: 0 <= i < j < |hits| ==> hits[i].chunkUuid != hits[j].chunkUuid)
      && (|hits| < topK ==> forall c :: Lists(lists, c) ==> exists i :: At(hits, c, i))
  {
    RankedEntries(k, lists);
    var hits := Fuse(k, lists, topK);
    forall i, j | 0 <= i < j < |hits| ensures hits[i].chunkUuid != hits[j].chunkUuid {
      SortedDistinct(k, Occurrences(lists), i, j);
    }
  }

  /** The hit has the document, text, sources and score that its chunk has in the merged results. */
  ghost predicate IsMerged(k: nat, occ: seq<Occurrence>, hit: Fused) {
    && Mentions(occ, hit.chunkUuid)
    && hit.docUuid == DocOf(occ, hit.chunkUuid) && hit.text == TextOf(occ, hit.chunkUuid)
    && hit.sources == SourcesOf(occ, hit.chunkUuid) && MeetsFormula(k, occ, hit.chunkUuid, hit.score)
  }

  /** A hit carries the document, text and sources that the merged results have for its chunk. */
  lemma {:induction false} FusedIsMerged(k: nat, lists: seq<Ranking>, topK: nat)
    ensures forall hit :: hit in Fuse(k, lists, topK) ==> IsMerged(k, Occurrences(lists), hit)
  {
    var occ, hits := Occurrences(lists), Fuse(k, lists, topK);
    SortedEntries(k, occ);
    forall i | 0 <= i < |hits| ensures IsMerged(k, occ, hits[i]) {
      ScoreMeetsFormula(k, occ, hits[i].chunkUuid);
    }
  }

  ghost predicate FirstMention(occ: seq<Occurrence>, c: ChunkUuid, p: int) {
    IsOf(occ, c, p) && forall j :: j < p ==> !IsOf(occ, c, j)
  }

  lemma {:induction false} FirstSeenInOrder(occ: seq<Occurrence>, i: nat, j: nat) returns (p: nat, q: nat)
    requires i < j < |FirstSeen(occ)|
    ensures FirstMention(occ, FirstSeen(occ)[i], p) && FirstMention(occ, FirstSeen(occ)[j], q) && p < q
    decreases |occ|
  {
    var n := |occ| - 1;
    var before, c := occ[..n], occ[n].hit.chunkUuid;
    FirstSeenIsDistinct(before);
    if j < |FirstSeen(before)| {
      p, q := FirstSeenInOrder(before, i, j);
      FirstMentionLater(occ, FirstSeen(before)[i], p);
      FirstMentionLater(occ, FirstSeen(before)[j], q);
    } else {
      p := DocIsFirst(before, FirstSeen(before)[i]);
      FirstMentionLater(occ, FirstSeen(before)[i], p);
      q := n;
      assert forall m :: 0 <= m < n ==> before[m] == occ[m];
    }
  }

  lemma {:induction false} FirstMentionLater(occ: seq<Occurrence>, c: ChunkUuid, p: nat)
    requires occ != [] && FirstMention(occ[..|occ| - 1], c, p)
    ensures FirstMention(occ, c, p)
  {
    assert forall j :: j < p ==> (IsOf(occ, c, j) <==> IsOf(occ[..|occ| - 1], c, j));
  }

  lemma {:induction false} ScoredAt(s: seq<Entry>, x: real, i: nat) returns (p: nat)
    requires i < |s| && s[i].score == x
    ensures p < |WithScore(s, x)| && WithScore(s, x)[p] == s[i]
    ensures p == |WithScore(s[..i], x)|
    decreases |s|
  {
    if i == 0 {
      p := 0;
    } else {
      p := ScoredAt(s[1..], x, i - 1);
      assert s[1..][..i - 1] == s[..i][1..];
      p := p + if s[0].score == x then 1 else 0;
    }
  }

  lemma {:induction false} ScoredGrows(s: seq<Entry>, x: real, i: nat, j: nat)
    requires i < j <= |s| && s[i].score == x
    ensures |WithScore(s[..i], x)| < |WithScore(s[..j], x)|
    decreases |s|
  {
    assert s[1..][..j - 1] == s[..j][1..];
    if i > 0 {
      ScoredGrows(s[1..], x, i - 1, j - 1);
      assert s[1..][..i - 1] == s[..i][1..];
    }
  }

  lemma {:induction false} ScoredFrom(s: seq<Entry>, x: real, p: nat) returns (i: nat)
    requires p < |WithScore(s, x)|
    ensures i < |s| && s[i].score == x && WithScore(s, x)[p] == s[i] && p == |WithScore(s[..i], x)|
    decreases |s|
  {
    if s[0].score == x && p == 0 {
      i := 0;
    } else {
      var p' := if s[0].score == x then p - 1 else p;
      i := ScoredFrom(s[1..], x, p');
      assert s[1..][..i] == s[..i + 1][1..];
      i := i + 1;
    }
  }

  /** Where the sort keeps two entries with the same score in order. */
  lemma {:induction false} SameScoreSameOrder(s: seq<Entry>, i: nat, j: nat) returns (a: nat, b: nat)
    requires i < j < |SortDesc(s)| && SortDesc(s)[i].score == SortDesc(s)[j].score
    ensures a < b < |s| && s[a] == SortDesc(s)[i] && s[b] == SortDesc(s)[j]
  {
    var sorted := SortDesc(s);
    var x := sorted[i].score;
    SortIsStableSort(s);
    var p := ScoredAt(sorted, x, i);
    var q := ScoredAt(sorted, x, j);
    ScoredGrows(sorted, x, i, j);
    a := ScoredFrom(s, x, p);
    b := ScoredFrom(s, x, q);
    if b < a {
      ScoredGrows(s, x, b, a);
    }
  }

  /** Chunks with equal scores stand in the order of their first mention. */
  lemma {:induction false} TiesKeepOrder(k: nat, lists: seq<Ranking>, topK: nat, i: nat, j: nat)
    returns (p: nat, q: nat)
    requires i < j < |Fuse(k, lists, topK)|
    requires Fuse(k, lists, topK)[i].score == Fuse(k, lists, topK)[j].score
    ensures var hits, occ := Fuse(k, lists, topK), Occurrences(lists);
      FirstMention(occ, hits[i].chunkUuid, p) && FirstMention(occ, hits[j].chunkUuid, q) && p < q
  {
    var occ := Occurrences(lists);
    var a, b := SameScoreSameOrder(Values(k, occ), i, j);
    p, q := FirstSeenInOrder(occ, a, b);
  }

  lemma {:induction false} OutrankedIsListed(k: nat, lists: seq<Ranking>, a: ChunkUuid, b: ChunkUuid)
    requires Lists(lists, b) && forall r :: r in lists ==> Outranks(r.hits, a, b)
    ensures Lists(lists, a)
  {
    var r, m :| r in lists && 0 <= m < |r.hits| && r.hits[m].chunkUuid == b;
    assert Found(r.hits, b, m);
    ListLead(k, r.hits, a, b);
    CountIfFound(r.hits, b);
    CountIfFound(r.hits, a);
    var n :| Found(r.hits, a, n);
    assert r.hits[n].chunkUuid == a;
  }

  /** If a outranks b in every ranking, then wherever b is in the fused list, a stands above it. */
  lemma {:induction false} OutrankingDecides(
    k: nat, lists: seq<Ranking>, topK: nat, a: ChunkUuid, b: ChunkUuid, j: int) returns (i: int)
    requires forall r :: r in lists ==> Outranks(r.hits, a, b)
    requires At(Fuse(k, lists, topK), b, j)
    ensures i < j && At(Fuse(k, lists, topK), a, i)
  {
    var hits := Ranked(k, lists);
    RankedEntries(k, lists);
    assert At(hits, b, j) && Lists(lists, b);
    SumOrder(k, lists, a, b);
    OutrankedIsListed(k, lists, a, b);
    i :| At(hits, a, i);
  }

  lemma {:induction false} SumPositive(k: nat, lists: seq<Ranking>, c: ChunkUuid)
    requires Lists(lists, c)
    ensures SumOver(k, lists, c) > 0.0
  {
    MentionedIsListed(lists, c);
    UnmentionedScore(k, Occurrences(lists), c);
    ScoreIsSum(k, lists, c);
  }

  lemma {:induction false} ScoresArePositive(k: nat, lists: seq<Ranking>, topK: nat)
    ensures forall i :: 0 <= i < |Fuse(k, lists, topK)| ==> Fuse(k, lists, topK)[i].score > 0.0
  {
    var hits := Ranked(k, lists);
    RankedEntries(k, lists);
    forall i | 0 <= i < |hits| ensures hits[i].score > 0.0 {
      assert At(hits, hits[i].chunkUuid, i);
      SumPositive(k, lists, hits[i].chunkUuid);
    }
  }

  /** Every fused score is positive and at most T / (k + 1) for T rankings without repeated chunks. */
  lemma {:induction false} ScoreRange(k: nat, lists: seq<Ranking>, topK: nat, i: nat)
    requires AllDistinct(lists) && i < |Fuse(k, lists, topK)|
    ensures 0.0 < Fuse(k, lists, topK)[i].score <= |lists| as real * Contribution(k, 0)
  {
    var hit := Ranked(k, lists)[i];
    RankedEntries(k, lists);
    assert At(Ranked(k, lists), hit.chunkUuid, i);
    SumPositive(k, lists, hit.chunkUuid);
    SumBound(k, lists, hit.chunkUuid);
  }

  // ---------------------------------------------------------------- threshold

  function AtLeast(hits: seq<Fused>, minScore: real): seq<Fused> {
    if hits == [] then [] else
      (if hits[0].score >= minScore then [hits[0]] else []) + AtLeast(hits[1..], minScore)
  }

  function MinScore(hits: seq<Fused>, minScore: real): seq<Fused> {
    if minScore > 0.0 then AtLeast(hits, minScore) else hits
  }

  lemma {:induction false} NoneAtLeast(hits: seq<Fused>, minScore: real)
    requires forall i :: 0 <= i < |hits| ==> hits[i].score < minScore
    ensures AtLeast(hits, minScore) == []
  {
    if hits != [] {
      NoneAtLeast(hits[1..], minScore);
    }
  }

  lemma {:induction false} AtLeastIsPrefix(hits: seq<Fused>, minScore: real)
    requires FallingHits(hits)
    ensures AtLeast(hits, minScore) <= hits
    ensures var n := |AtLeast(hits, minScore)|;
      && (forall i :: 0 <= i < n ==> hits[i].score >= minScore)
      && (forall i :: n <= i < |hits| ==> hits[i].score < minScore)
  {
    if hits != [] {
      AtLeastIsPrefix(hits[1..], minScore);
      assert hits == [hits[0]] + hits[1..];
      if hits[0].score < minScore {
        NoneAtLeast(hits[1..], minScore);
      } else {
        var n := |AtLeast(hits, minScore)|;
        forall i | 0 <= i < |hits|
          ensures i < n ==> hits[i].score >= minScore
          ensures i >= n ==> hits[i].score < minScore
        {
          if i > 0 {
            assert hits[i] == hits[1..][i - 1];
          }
        }
      }
    }
  }

  lemma {:induction false} AtLeastOfTake(hits: seq<Fused>, minScore: real, n: nat)
    requires FallingHits(hits)
    ensures AtLeast(Take(hits, n), minScore) == Take(AtLeast(hits, minScore), n)
    decreases |hits|
  {
    if hits != [] && n > 0 {
      if hits[0].score < minScore {
        NoneAtLeast(hits, minScore);
        NoneAtLeast(Take(hits, n), minScore);
      } else {
        AtLeastOfTake(hits[1..], minScore, n - 1);
        assert Take(hits, n)[1..] == Take(hits[1..], n - 1);
      }
    }
  }

  /** The threshold keeps a prefix, so it does not matter whether it is applied before or after the
      truncation to the top k. */
  lemma {:induction false} ThresholdCommutes(k: nat, lists: seq<Ranking>, topK: nat, minScore: real)
    ensures MinScore(Fuse(k, lists, topK), minScore) <= Fuse(k, lists, topK)
    ensures MinScore(Fuse(k, lists, topK), minScore) == Take(MinScore(Ranked(k, lists), minScore), topK)
    ensures var hits, n := Fuse(k, lists, topK), |MinScore(Fuse(k, lists, topK), minScore)|;
      && (forall i :: 0 <= i < n ==> hits[i].score >= minScore)
      && (forall i :: n <= i < |hits| ==> hits[i].score < minScore)
  {
    ScoresArePositive(k, lists, topK);
    RankedEntries(k, lists);
    AtLeastIsPrefix(Fuse(k, lists, topK), minScore);
    if minScore > 0.0 {
      AtLeastOfTake(Ranked(k, lists), minScore, topK);
    }
  }

  /** A chunk that is first in every ranking, and nowhere else, has the greatest score possible. */
  lemma {:induction false} FirstEverywhere(k: nat, lists: seq<Ranking>, c: ChunkUuid)
    requires AllDistinct(lists) && forall r :: r in lists ==> Found(r.hits, c, 0)
    ensures SumOver(k, lists, c) == |lists| as real * Contribution(k, 0)
    decreases |lists|
  {
    if lists != [] {
      ListScoreAt(k, lists[0].hits, c, 0);
      FirstEverywhere(k, lists[1..], c);
      var m, x := (|lists| - 1) as real, Contribution(k, 0);
      assert (m + 1.0) * x == m * x + x;
    }
  }

  /** With the default k of 60 and at most three rankings without repeated chunks, a threshold above 3/61
      returns nothing. */
  lemma {:induction false} HighThresholdIsEmpty(lists: seq<Ranking>, topK: nat, minScore: real)
    requires AllDistinct(lists) && |lists| <= 3 && minScore > 3.0 / 61.0
    ensures MinScore(Fuse(60, lists, topK), minScore) == []
  {
    var hits := Fuse(60, lists, topK);
    forall i | 0 <= i < |hits| ensures hits[i].score < minScore {
      ScoreRange(60, lists, topK, i);
      assert |lists| as real * Contribution(60, 0) <= 3.0 * Contribution(60, 0);
    }
    NoneAtLeast(hits, minScore);
  }

  /** Three rankings that name the same chunk, and no other, once each. */
  function SameFirst(h: Hit): seq<Ranking> {
    [Ranking(Dense, [h]), Ranking(Sparse, [h]), Ranking(Graph, [h])]
  }

  lemma {:induction false} LowThresholdIsMet(h: Hit, topK: nat, minScore: real)
    requires topK >= 1 && minScore <= 3.0 / 61.0
    ensures AllDistinct(SameFirst(h)) && MinScore(Fuse(60, SameFirst(h), topK), minScore) != []
  {
    var lists, c := SameFirst(h), h.chunkUuid;
    assert lists[0] in lists && Found(lists[0].hits, c, 0);
    assert Lists(lists, c);
    FirstEverywhere(60, lists, c);
    RankedEntries(60, lists);
    FirstIsKept(60, lists, c, topK, minScore);
  }

  lemma {:induction false} FirstIsKept(k: nat, lists: seq<Ranking>, c: ChunkUuid, topK: nat, minScore: real)
    requires topK >= 1 && Lists(lists, c) && SumOver(k, lists, c) >= minScore
    ensures MinScore(Fuse(k, lists, topK), minScore) != []
  {
    RankedEntries(k, lists);
    var hits := Ranked(k, lists);
    var i :| At(hits, c, i);
    assert hits[0].score >= hits[i].score == SumOver(k, lists, c);
    assert Fuse(k, lists, topK)[0] == hits[0];
  }

  /** With the default k of 60, a threshold can be met by the fusion of at most three rankings without
      repeated chunks if and only if it is at most 3/61. */
  lemma {:induction false} ThresholdCanBeMetIff(topK: nat, minScore: real)
    requires topK >= 1
    ensures (exists lists :: AllDistinct(lists) && |lists| <= 3 && MinScore(Fuse(60, lists, topK), minScore) != []) <==>
      minScore <= 3.0 / 61.0
  {
    if minScore <= 3.0 / 61.0 {
      LowThresholdIsMet(Hit("", "", 0.0, None), topK, minScore);
      assert |SameFirst(Hit("", "", 0.0, None))| == 3;
    } else {
      forall lists | AllDistinct(lists) && |lists| <= 3
        ensures MinScore(Fuse(60, lists, topK), minScore) == []
      {
        HighThresholdIsEmpty(lists, topK, minScore);
      }
    }
  }

  lemma {:induction false} FourTimes(k: nat, h: Hit)
    ensures ListScore(k, [h, h, h, h], h.chunkUuid) ==
      Contribution(k, 0) + Contribution(k, 1) + Contribution(k, 2) + Contribution(k, 3)
  {
    ListScoreSnoc(k, [], h, h.chunkUuid);
    ListScoreSnoc(k, [h], h, h.chunkUuid);
    ListScoreSnoc(k, [h, h], h, h.chunkUuid);
    ListScoreSnoc(k, [h, h, h], h, h.chunkUuid);
    assert [] + [h] == [h] && [h] + [h] == [h, h] && [h, h] + [h] == [h, h, h] && [h, h, h] + [h] == [h, h, h, h];
  }

  /** Repeats are not removed: one ranking that names a chunk four times lifts it above 3/61. */
  lemma {:induction false} RepeatsExceedTheBound(h: Hit)
    ensures SumOver(60, [Ranking(Dense, [h, h, h, h])], h.chunkUuid) > 3.0 / 61.0
  {
    var r := Ranking(Dense, [h, h, h, h]);
    FourTimes(60, h);
    ContributionFalls(60, 0, 3);
    ContributionFalls(60, 1, 3);
    ContributionFalls(60, 2, 3);
    assert [r][1..] == [];
    assert SumOver(60, [r], h.chunkUuid) == ListScore(60, r.hits, h.chunkUuid) + SumOver(60, [], h.chunkUuid);
  }
}
