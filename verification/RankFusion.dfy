/** Reciprocal rank fusion: merging the ranked results of several kinds of search into one list. */
module RankFusion {
  import opened Stores

  datatype SearchType = Dense | Sparse | Graph | Hybrid

  datatype Hit = Hit(chunkUuid: ChunkUuid, docUuid: DocUuid, score: real, text: Option<string>)

  /** One entry of the results grouped by search type; a dictionary is a sequence of them. */
  datatype Ranking = Ranking(kind: SearchType, hits: seq<Hit>)

  datatype Source = Source(score: real, rank: nat)

  datatype Entry = Entry(
    chunkUuid: ChunkUuid, docUuid: DocUuid, score: real, text: Option<string>, sources: map<SearchType, Source>)

  datatype Fused = Fused(
    chunkUuid: ChunkUuid, docUuid: DocUuid, score: real, distance: real, text: Option<string>,
    sources: map<SearchType, Source>)

  /** A hit at a 0-based position of one ranking. */
  datatype Occurrence = Occurrence(kind: SearchType, index: nat, hit: Hit)

  function Contribution(k: nat, index: nat): (r: real)
    ensures 0.0 < r
  {
    1.0 / (k + index + 1) as real
  }

  predicate Truthy(text: Option<string>) {
    text.Some? && text.value != ""
  }

  // ---------------------------------------------------------------- what the merged results are

  function Enumerated(r: Ranking): (occ: seq<Occurrence>)
    ensures |occ| == |r.hits|
    ensures forall i :: 0 <= i < |occ| ==> occ[i] == Occurrence(r.kind, i, r.hits[i])
  {
    seq(|r.hits|, i requires 0 <= i < |r.hits| => Occurrence(r.kind, i, r.hits[i]))
  }

  /** Every hit of every ranking, in the order in which the rankings are read. */
  function Occurrences(lists: seq<Ranking>): seq<Occurrence> {
    if lists == [] then [] else
      Occurrences(lists[..|lists| - 1]) + Enumerated(lists[|lists| - 1])
  }

  predicate Mentions(occ: seq<Occurrence>, c: ChunkUuid) {
    exists i :: 0 <= i < |occ| && occ[i].hit.chunkUuid == c
  }

  /** The chunks mentioned, each once, in the order of their first mention. */
  function FirstSeen(occ: seq<Occurrence>): seq<ChunkUuid> {
    if occ == [] then [] else
      var before, c := occ[..|occ| - 1], occ[|occ| - 1].hit.chunkUuid;
      FirstSeen(before) + if Mentions(before, c) then [] else [c]
  }

  function Score(k: nat, occ: seq<Occurrence>, c: ChunkUuid): real {
    if occ == [] then 0.0 else
      var o := occ[|occ| - 1];
      Score(k, occ[..|occ| - 1], c) + if o.hit.chunkUuid == c then Contribution(k, o.index) else 0.0
  }

  function DocOf(occ: seq<Occurrence>, c: ChunkUuid): DocUuid
    requires Mentions(occ, c)
  {
    var before := occ[..|occ| - 1];
    if Mentions(before, c) then DocOf(before, c) else occ[|occ| - 1].hit.docUuid
  }

  /** The first text given for c that is not empty; failing that, its first text. */
  function TextOf(occ: seq<Occurrence>, c: ChunkUuid): Option<string>
    requires Mentions(occ, c)
  {
    var before, o := occ[..|occ| - 1], occ[|occ| - 1];
    if !Mentions(before, c) then o.hit.text
    else if o.hit.chunkUuid == c && !Truthy(TextOf(before, c)) && Truthy(o.hit.text) then o.hit.text
    else TextOf(before, c)
  }

  /** The rank and raw score of c under every search type that found it. */
  function SourcesOf(occ: seq<Occurrence>, c: ChunkUuid): map<SearchType, Source> {
    if occ == [] then map[] else
      var before, o := SourcesOf(occ[..|occ| - 1], c), occ[|occ| - 1];
      if o.hit.chunkUuid == c then before[o.kind := Source(o.hit.score, o.index + 1)] else before
  }

  function EntryOf(k: nat, occ: seq<Occurrence>, c: ChunkUuid): Entry
    requires Mentions(occ, c)
  {
    Entry(c, DocOf(occ, c), Score(k, occ, c), TextOf(occ, c), SourcesOf(occ, c))
  }

  /** The merged dictionary, with the order in which its keys were inserted. */
  ghost predicate Represents(merged: map<ChunkUuid, Entry>, order: seq<ChunkUuid>, occ: seq<Occurrence>, k: nat) {
    && order == FirstSeen(occ)
    && (forall c :: c in merged <==> Mentions(occ, c))
    && (forall c :: c in merged ==> merged[c] == EntryOf(k, occ, c))
  }

  predicate NoRepeats(order: seq<ChunkUuid>) {
    forall i, j :: 0 <= i < j < |order| ==> order[i] != order[j]
  }

  lemma {:induction false} FirstSeenIsDistinct(occ: seq<Occurrence>)
    ensures NoRepeats(FirstSeen(occ))
    ensures forall c :: c in FirstSeen(occ) <==> Mentions(occ, c)
  {
    if occ != [] {
      FirstSeenIsDistinct(occ[..|occ| - 1]);
      MentionsStep(occ);
    }
  }

  lemma {:induction false} MentionsStep(occ: seq<Occurrence>)
    requires occ != []
    ensures forall c :: Mentions(occ, c) <==>
      (Mentions(occ[..|occ| - 1], c) || c == occ[|occ| - 1].hit.chunkUuid)
  {
  }

  // ---------------------------------------------------------------- the formula

  function Sum(terms: seq<real>): real {
    if terms == [] then 0.0 else Sum(terms[..|terms| - 1]) + terms[|terms| - 1]
  }

  predicate IsInverse(x: real, n: nat) {
    x * n as real == 1.0
  }

  /** Every mention of c has the reciprocal of k plus its 1-based rank as its term; all other terms are 0. */
  ghost predicate Reciprocals(k: nat, occ: seq<Occurrence>, c: ChunkUuid, terms: seq<real>) {
    && |terms| == |occ|
    && forall i :: 0 <= i < |occ| ==>
      if occ[i].hit.chunkUuid == c then IsInverse(terms[i], k + occ[i].index + 1) else terms[i] == 0.0
  }

  /** x is the sum of the reciprocals of k plus rank over all mentions of c. */
  ghost predicate MeetsFormula(k: nat, occ: seq<Occurrence>, c: ChunkUuid, x: real) {
    exists terms :: Reciprocals(k, occ, c, terms) && Sum(terms) == x
  }

  lemma {:induction false} Reciprocal(k: nat, index: nat)
    ensures IsInverse(Contribution(k, index), k + index + 1)
  {
  }

  lemma {:induction false} ScoreMeetsFormula(k: nat, occ: seq<Occurrence>, c: ChunkUuid)
    ensures MeetsFormula(k, occ, c, Score(k, occ, c))
  {
    var terms := ScoreTerms(k, occ, c);
  }

  lemma {:induction false} ScoreTerms(k: nat, occ: seq<Occurrence>, c: ChunkUuid) returns (terms: seq<real>)
    ensures Reciprocals(k, occ, c, terms) && Sum(terms) == Score(k, occ, c)
    decreases |occ|
  {
    terms := [];
    if occ != [] {
      var n := |occ| - 1;
      var before := ScoreTerms(k, occ[..n], c);
      var last := if occ[n].hit.chunkUuid == c then Contribution(k, occ[n].index) else 0.0;
      Reciprocal(k, occ[n].index);
      terms := before + [last];
      assert terms[..n] == before && terms[n] == last;
      forall i | 0 <= i < |occ|
        ensures if occ[i].hit.chunkUuid == c then IsInverse(terms[i], k + occ[i].index + 1) else terms[i] == 0.0
      {
        if i < n {
          assert occ[..n][i] == occ[i] && terms[i] == before[i];
        }
      }
    }
  }

  lemma {:induction false} MergedMeetFormula(
    merged: map<ChunkUuid, Entry>, order: seq<ChunkUuid>, occ: seq<Occurrence>, k: nat)
    requires Represents(merged, order, occ, k)
    ensures forall c :: c in merged ==> MeetsFormula(k, occ, c, merged[c].score)
  {
    forall c | c in merged ensures MeetsFormula(k, occ, c, merged[c].score) {
      ScoreMeetsFormula(k, occ, c);
    }
  }

  /** One more mention, at some place of a ranking, adds the reciprocal of k plus its 1-based rank to the
      score of the chunk mentioned, and nothing to any other. */
  lemma {:induction false} MentionAdds(k: nat, occ: seq<Occurrence>, o: Occurrence)
    ensures IsInverse(Score(k, occ + [o], o.hit.chunkUuid) - Score(k, occ, o.hit.chunkUuid), k + o.index + 1)
    ensures forall c :: c != o.hit.chunkUuid ==> Score(k, occ + [o], c) == Score(k, occ, c)
  {
    assert (occ + [o])[..|occ|] == occ;
    Reciprocal(k, o.index);
  }

  // ---------------------------------------------------------------- the accumulation loop

  lemma {:induction false} Extend(seen: seq<Occurrence>, o: Occurrence)
    ensures (seen + [o])[..|seen|] == seen
    ensures forall c :: Mentions(seen + [o], c) <==> (Mentions(seen, c) || c == o.hit.chunkUuid)
  {
    assert (seen + [o])[..|seen|] == seen;
    MentionsStep(seen + [o]);
  }

  method CalculateRrfScores(lists: seq<Ranking>, k: nat)
    returns (merged: map<ChunkUuid, Entry>, order: seq<ChunkUuid>)
    ensures Represents(merged, order, Occurrences(lists), k)
    ensures forall c :: c in merged ==> MeetsFormula(k, Occurrences(lists), c, merged[c].score)
  {
    merged, order := map[], [];
    ghost var seen: seq<Occurrence> := [];
    var i := 0;
    while i < |lists|
      invariant i <= |lists|
      invariant seen == Occurrences(lists[..i])
      invariant Represents(merged, order, seen, k)
    {
      var kind, hits := lists[i].kind, lists[i].hits;
      ghost var before := seen;
      var j := 0;
      while j < |hits|
        invariant j <= |hits|
        invariant seen == before + Enumerated(lists[i])[..j]
        invariant Represents(merged, order, seen, k)
      {
        ghost var o := Occurrence(kind, j, hits[j]);
        merged, order := Absorb(merged, order, seen, kind, j, hits[j], k);
        assert Enumerated(lists[i])[..j + 1] == Enumerated(lists[i])[..j] + [o];
        seen := seen + [o];
        j := j + 1;
      }
      assert lists[..i + 1][..i] == lists[..i];
      assert Enumerated(lists[i])[..|hits|] == Enumerated(lists[i]);
      i := i + 1;
    }
    assert lists[..|lists|] == lists;
    MergedMeetFormula(merged, order, Occurrences(lists), k);
  }

  /** The body of the loop, for the hit at position `index` of a ranking. */
  method Absorb(merged: map<ChunkUuid, Entry>, order: seq<ChunkUuid>, ghost seen: seq<Occurrence>,
                kind: SearchType, index: nat, hit: Hit, k: nat)
    returns (merged': map<ChunkUuid, Entry>, order': seq<ChunkUuid>)
    requires Represents(merged, order, seen, k)
    ensures Represents(merged', order', seen + [Occurrence(kind, index, hit)], k)
  {
    var c, contribution := hit.chunkUuid, Contribution(k, index);
    Extend(seen, Occurrence(kind, index, hit));
    UnmentionedScore(k, seen, c);
    if c in merged {
      var entry := merged[c].(score := merged[c].score + contribution,
                              sources := merged[c].sources[kind := Source(hit.score, index + 1)]);
      if !Truthy(entry.text) && Truthy(hit.text) {
        entry := entry.(text := hit.text);
      }
      merged', order' := merged[c := entry], order;
    } else {
      merged' := merged[c := Entry(c, hit.docUuid, contribution, hit.text, map[kind := Source(hit.score, index + 1)])];
      order' := order + [c];
    }
  }

  lemma {:induction false} UnmentionedScore(k: nat, occ: seq<Occurrence>, c: ChunkUuid)
    ensures !Mentions(occ, c) ==> Score(k, occ, c) == 0.0 && SourcesOf(occ, c) == map[]
    ensures Mentions(occ, c) ==> Score(k, occ, c) > 0.0
  {
    if occ != [] {
      MentionsStep(occ);
      ScoreNonNegative(k, occ[..|occ| - 1], c);
      UnmentionedScore(k, occ[..|occ| - 1], c);
    }
  }

  lemma {:induction false} ScoreNonNegative(k: nat, occ: seq<Occurrence>, c: ChunkUuid)
    ensures Score(k, occ, c) >= 0.0
  {
    if occ != [] {
      ScoreNonNegative(k, occ[..|occ| - 1], c);
    }
  }
}
