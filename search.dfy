/**
 * The face search: score the query embedding against every registered
 * student's stored embedding, keep the scores at or above the caller's
 * threshold, and rank them from the most to the least similar.
 */
module Search {
  import opened Wrappers
  import opened Numeric
  import opened Format
  import opened Similarity

  /** The fields of a stored student record that the search reads. */
  datatype StudentDoc = StudentDoc(studentId: string, faceEmbedding: Option<seq<real>>, faceImageUrl: string)

  /** One entry of the ranked result. */
  datatype Match = Match(
    studentId: string,
    similarity: real,
    matchPercentage: string,
    confidence: ConfidenceLevel,
    faceImageUrl: string)

  /** The caller's data: the query embedding and an optional threshold. */
  datatype SearchRequest = SearchRequest(embedding: Option<seq<real>>, threshold: Option<real>)

  datatype SearchOutcome =
    | Failed(message: string)
    | NoRegisteredStudents
    | Found(matches: seq<Match>, totalMatches: nat, bestMatch: Option<Match>, thresholdUsed: real)

  const DefaultThreshold: real := 0.75

  /** The threshold the search applies: the caller's, or 0.75 when none was given. */
  function ThresholdOf(request: SearchRequest): real {
    match request.threshold
    case Some(t) => t
    case None => DefaultThreshold
  }

  /** The student's record has an embedding of the query's length, and its score reaches the threshold. */
  predicate IsCandidate(query: seq<real>, doc: StudentDoc, threshold: real, sqrt: real -> real)
    requires IsSqrt(sqrt)
  {
    Comparable(Some(query), doc.faceEmbedding) && Cosine(query, doc.faceEmbedding.value, sqrt) >= threshold
  }

  /** The entry built for a student from the scorer's result for the query and the stored embedding. */
  function MatchOf(query: seq<real>, doc: StudentDoc, sqrt: real -> real): Match
    requires IsSqrt(sqrt)
  {
    var result := Score(Some(query), doc.faceEmbedding, sqrt);
    Match(doc.studentId, result.similarity, result.matchPercentage, result.confidenceLevel, doc.faceImageUrl)
  }

  /** The entries of the students that pass, in the order the records were read. */
  function Candidates(query: seq<real>, docs: seq<StudentDoc>, threshold: real, sqrt: real -> real): (r: seq<Match>)
    requires IsSqrt(sqrt)
    ensures |r| <= |docs|
    ensures forall m :: m in r ==> threshold <= m.similarity && -1.0 <= m.similarity <= 1.0
  {
    if |docs| == 0 then []
    else
      var last := docs[|docs| - 1];
      var front := Candidates(query, docs[..|docs| - 1], threshold, sqrt);
      if IsCandidate(query, last, threshold, sqrt) then
        CosineBounded(query, last.faceEmbedding.value, sqrt);
        front + [MatchOf(query, last, sqrt)]
      else front
  }

  /** Ranked from the highest similarity to the lowest. */
  predicate SortedDescending(s: seq<Match>) {
    forall i, j :: 0 <= i < j < |s| ==> s[i].similarity >= s[j].similarity
  }

  /** `findStudentByFace`, from the request and the registered students' records onwards. */
  method FindStudentByFace(request: SearchRequest, docs: seq<StudentDoc>, sqrt: real -> real)
    returns (outcome: SearchOutcome)
    requires IsSqrt(sqrt)
    ensures request.embedding.None? ==> outcome == Failed("Face embedding is required")
    ensures request.embedding.Some? && |docs| == 0 ==> outcome == NoRegisteredStudents
    ensures request.embedding.Some? && |docs| > 0 ==>
      var candidates := Candidates(request.embedding.value, docs, ThresholdOf(request), sqrt);
      && outcome.Found?
      && SortedDescending(outcome.matches)
      && multiset(outcome.matches) == multiset(candidates)
      && outcome.totalMatches == |outcome.matches|
      && outcome.bestMatch == (if |outcome.matches| > 0 then Some(outcome.matches[0]) else None)
      && outcome.thresholdUsed == ThresholdOf(request)
      && (outcome.bestMatch.None? <==> |candidates| == 0)
      && (outcome.bestMatch.Some? ==>
            && outcome.bestMatch.value in candidates
            && forall m :: m in candidates ==> m.similarity <= outcome.bestMatch.value.similarity)
  {
    if request.embedding.None? {
      return Failed("Face embedding is required");
    }
    var embedding := request.embedding.value;
    var threshold := if request.threshold.Some? then request.threshold.value else DefaultThreshold;
    if |docs| == 0 {
      return NoRegisteredStudents;
    }

    var matches := ScoreStudents(embedding, docs, threshold, sqrt);
    var ranked := new Match[|matches|](k requires 0 <= k < |matches| => matches[k]);
    assert ranked[..] == matches;
    SortBySimilarityDescending(ranked);
    var sorted := ranked[..];
    HeadOfRanking(sorted, matches);
    outcome := Found(sorted, |sorted|, if |sorted| > 0 then Some(sorted[0]) else None, threshold);
  }

  /** The `for (const doc of studentsSnapshot.docs)` loop: score each record and keep those that pass. */
  method ScoreStudents(embedding: seq<real>, docs: seq<StudentDoc>, threshold: real, sqrt: real -> real)
    returns (matches: seq<Match>)
    requires IsSqrt(sqrt)
    ensures matches == Candidates(embedding, docs, threshold, sqrt)
  {
    matches := [];
    for i := 0 to |docs|
      invariant matches == Candidates(embedding, docs[..i], threshold, sqrt)
    {
      var kept := ScoreStudent(embedding, docs[i], threshold, sqrt);
      matches := matches + kept;
      assert docs[..i + 1][..i] == docs[..i];
    }
    assert docs[..|docs|] == docs;
  }

  /** The loop body for one record: its entry when it passes, nothing otherwise. */
  method ScoreStudent(embedding: seq<real>, doc: StudentDoc, threshold: real, sqrt: real -> real)
    returns (kept: seq<Match>)
    requires IsSqrt(sqrt)
    ensures kept == if IsCandidate(embedding, doc, threshold, sqrt) then [MatchOf(embedding, doc, sqrt)] else []
  {
    kept := [];
    var studentEmbedding := doc.faceEmbedding;
    if studentEmbedding.Some? && |studentEmbedding.value| == |embedding| {
      var result := CalculateEnhancedSimilarity(Some(embedding), studentEmbedding, sqrt);
      if result.similarity >= threshold {
        kept := [Match(doc.studentId, result.similarity, result.matchPercentage,
                       result.confidenceLevel, doc.faceImageUrl)];
        assert IsCandidate(embedding, doc, threshold, sqrt);
      } else {
        assert !IsCandidate(embedding, doc, threshold, sqrt);
      }
    } else {
      assert !Comparable(Some(embedding), studentEmbedding);
    }
  }

  /** `matches.sort((a, b) => b.similarity - a.similarity)`, as an insertion sort in place. */
  method SortBySimilarityDescending(a: array<Match>)
    modifies a
    ensures SortedDescending(a[..])
    ensures multiset(a[..]) == multiset(old(a[..]))
  {
    for i := 0 to a.Length
      invariant SortedDescending(a[..i])
      invariant multiset(a[..]) == multiset(old(a[..]))
    {
      var j := i;
      while j > 0 && a[j - 1].similarity < a[j].similarity
        invariant 0 <= j <= i
        invariant forall k, l :: 0 <= k < l <= i && l != j ==> a[k].similarity >= a[l].similarity
        invariant multiset(a[..]) == multiset(old(a[..]))
      {
        Swap(a, j - 1, j);
        j := j - 1;
      }
    }
  }

  method Swap(a: array<Match>, i: nat, j: nat)
    requires i < a.Length && j < a.Length
    modifies a
    ensures a[..] == old(a[..])[i := old(a[j])][j := old(a[i])]
    ensures multiset(a[..]) == multiset(old(a[..]))
  {
    a[i], a[j] := a[j], a[i];
  }

  // ---------------------------------------------------------------------
  // Properties of the search

  /** An entry is in the result exactly when some record passes and produced it. */
  lemma CandidateMembership(query: seq<real>, docs: seq<StudentDoc>, threshold: real,
                            sqrt: real -> real, m: Match)
    requires IsSqrt(sqrt)
    ensures m in Candidates(query, docs, threshold, sqrt) <==>
      exists i :: 0 <= i < |docs| && IsCandidate(query, docs[i], threshold, sqrt) && m == MatchOf(query, docs[i], sqrt)
  {
    if m in Candidates(query, docs, threshold, sqrt) {
      CandidateSound(query, docs, threshold, sqrt, m);
    }
    forall i | 0 <= i < |docs| && IsCandidate(query, docs[i], threshold, sqrt)
      ensures MatchOf(query, docs[i], sqrt) in Candidates(query, docs, threshold, sqrt)
    {
      CandidateComplete(query, docs, threshold, sqrt, i);
    }
  }

  /** Every entry comes from a record that passes. */
  lemma {:induction false} CandidateSound(query: seq<real>, docs: seq<StudentDoc>, threshold: real,
                                          sqrt: real -> real, m: Match)
    requires IsSqrt(sqrt)
    requires m in Candidates(query, docs, threshold, sqrt)
    ensures exists i :: 0 <= i < |docs| && IsCandidate(query, docs[i], threshold, sqrt) && m == MatchOf(query, docs[i], sqrt)
  {
    var front := docs[..|docs| - 1];
    var last := |docs| - 1;
    if m in Candidates(query, front, threshold, sqrt) {
      CandidateSound(query, front, threshold, sqrt, m);
      var i :| 0 <= i < |front| && IsCandidate(query, front[i], threshold, sqrt) && m == MatchOf(query, front[i], sqrt);
      assert docs[i] == front[i];
    } else {
      assert IsCandidate(query, docs[last], threshold, sqrt) && m == MatchOf(query, docs[last], sqrt);
    }
  }

  /** Every record that passes contributes its entry. */
  lemma {:induction false} CandidateComplete(query: seq<real>, docs: seq<StudentDoc>, threshold: real,
                                             sqrt: real -> real, i: nat)
    requires IsSqrt(sqrt)
    requires i < |docs| && IsCandidate(query, docs[i], threshold, sqrt)
    ensures MatchOf(query, docs[i], sqrt) in Candidates(query, docs, threshold, sqrt)
  {
    var front := docs[..|docs| - 1];
    if i < |front| {
      assert docs[i] == front[i];
      CandidateComplete(query, front, threshold, sqrt, i);
    }
  }

  /**
   * The head of a descending ranking of the candidates is a candidate with
   * the highest similarity; the ranking is empty exactly when there are none.
   */
  lemma HeadOfRanking(ranked: seq<Match>, candidates: seq<Match>)
    requires SortedDescending(ranked)
    requires multiset(ranked) == multiset(candidates)
    ensures |ranked| == |candidates|
    ensures |ranked| > 0 ==>
      && ranked[0] in candidates
      && forall m :: m in candidates ==> m.similarity <= ranked[0].similarity
  {
    assert |ranked| == |multiset(ranked)| == |multiset(candidates)| == |candidates|;
    if |ranked| > 0 {
      assert ranked[0] in multiset(ranked);
      forall m | m in candidates
        ensures m.similarity <= ranked[0].similarity
      {
        assert m in multiset(candidates);
        assert m in multiset(ranked);
        var j :| 0 <= j < |ranked| && ranked[j] == m;
      }
    }
  }

  /** A record whose embedding has another length than the query's never appears. */
  lemma DifferentLengthNeverCandidate(query: seq<real>, doc: StudentDoc, threshold: real, sqrt: real -> real)
    requires IsSqrt(sqrt)
    requires doc.faceEmbedding.Some? && |doc.faceEmbedding.value| != |query|
    ensures Candidates(query, [doc], threshold, sqrt) == []
  {
    assert [doc][..0] == [];
  }

  /**
   * A student registered with exactly the query embedding (not all zeros) is
   * found with similarity 1.0, "100.0" percent and the very_high tier, for any
   * threshold up to 1.
   */
  lemma RegisteredFaceFindsItself(query: seq<real>, docs: seq<StudentDoc>, i: nat, threshold: real, sqrt: real -> real)
    requires IsSqrt(sqrt)
    requires i < |docs| && docs[i].faceEmbedding == Some(query)
    requires Dot(query, query) > 0.0
    requires threshold <= 1.0
    ensures var m := MatchOf(query, docs[i], sqrt);
      && m in Candidates(query, docs, threshold, sqrt)
      && m.studentId == docs[i].studentId
      && m.similarity == 1.0
      && m.matchPercentage == "100.0"
      && m.confidence == VeryHigh
  {
    SelfSimilarity(query, sqrt);
    var m := MatchOf(query, docs[i], sqrt);
    assert IsCandidate(query, docs[i], threshold, sqrt);
    CandidateMembership(query, docs, threshold, sqrt, m);
    ToFixed1Hundred();
  }
}
