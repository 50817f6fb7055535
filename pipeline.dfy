/**
 * How the three parts meet: embeddings written by the storage trigger are
 * the records the search scores a query embedding against.
 */
module Pipeline {
  import opened Wrappers
  import opened Numeric
  import opened Face
  import opened Likelihood
  import opened Embedding
  import opened EmbeddingLayout
  import opened Similarity
  import opened Search

  /** The last six values are likelihoods, and the last one (under-exposure quality) is at least 0.1. */
  lemma EmbeddingNotZero(face: DetectedFace, sqrt: real -> real)
    requires IsSqrt(sqrt)
    requires RatiosDefined(face)
    ensures Dot(EmbeddingOf(face, sqrt), EmbeddingOf(face, sqrt)) > 0.0
  {
    var e := EmbeddingOf(face, sqrt);
    var body := GeometryBlock(face) + LandmarkBlock(face.landmarks, LandmarkTypes) + RatioBlock(face, sqrt);
    assert e == body + LikelihoodBlock(face);
    assert e[|e| - 1] == QualityLikelihoodToNumber(face.underExposed);
    LastPositiveNotZero(e);
  }

  /** A vector whose last value is positive has a positive squared norm. */
  lemma LastPositiveNotZero(e: seq<real>)
    requires |e| > 0 && e[|e| - 1] > 0.0
    ensures Dot(e, e) > 0.0
  {
    var init, last := e[..|e| - 1], e[|e| - 1];
    DotSelfNonNegative(init);
    calc {
      Dot(e, e);
    == { DotUnfold(e, e); }
      Dot(init, init) + last * last;
    >=
      last * last;
    >
      0.0;
    }
  }

  /**
   * With non-negative detection confidences, two embeddings of the same
   * length score between 0 and 1: every other value is in [0, 1].
   */
  lemma EmbeddingSimilarityNonNegative(f1: DetectedFace, f2: DetectedFace, sqrt: real -> real)
    requires IsSqrt(sqrt)
    requires RatiosDefined(f1) && RatiosDefined(f2)
    requires f1.detectionConfidence >= 0.0 && f2.detectionConfidence >= 0.0
    requires |EmbeddingOf(f1, sqrt)| == |EmbeddingOf(f2, sqrt)|
    ensures 0.0 <= Cosine(EmbeddingOf(f1, sqrt), EmbeddingOf(f2, sqrt), sqrt) <= 1.0
  {
    var e1, e2 := EmbeddingOf(f1, sqrt), EmbeddingOf(f2, sqrt);
    EmbeddingRange(f1, sqrt);
    EmbeddingRange(f2, sqrt);
    assert forall i :: 0 <= i < |e1| ==> e1[i] >= 0.0 && e2[i] >= 0.0;
    NonNegativeVectorsSimilarity(e1, e2, sqrt);
  }

  /**
   * A face with fewer than three landmarks (100 values) and a face with
   * both eyes, nose tip and mouth centre (99 values) are never compared:
   * the scorer returns its fixed no-match result and the search drops the record.
   */
  lemma SparseAndFullFacesNeverCompared(sparse: DetectedFace, full: DetectedFace, sqrt: real -> real,
                                        studentId: string, faceImageUrl: string, threshold: real)
    requires IsSqrt(sqrt)
    requires RatiosDefined(sparse) && RatiosDefined(full)
    requires |sparse.landmarks| < 3
    requires |full.landmarks| >= 3
    requires Has(full.landmarks, "LEFT_EYE") && Has(full.landmarks, "RIGHT_EYE")
    requires Has(full.landmarks, "NOSE_TIP") && Has(full.landmarks, "MOUTH_CENTER")
    ensures var query := EmbeddingOf(sparse, sqrt);
      var stored := EmbeddingOf(full, sqrt);
      && !Comparable(Some(query), Some(stored))
      && Candidates(query, [StudentDoc(studentId, Some(stored), faceImageUrl)], threshold, sqrt) == []
  {
    EmbeddingLength(sparse, sqrt);
    FullFaceLength(full, sqrt);
    DifferentLengthNeverCandidate(EmbeddingOf(sparse, sqrt),
      StudentDoc(studentId, Some(EmbeddingOf(full, sqrt)), faceImageUrl), threshold, sqrt);
  }

  /**
   * Searching with the very embedding a student was registered with finds
   * that student with similarity 1.0 in the very_high tier, at any
   * threshold up to 1 (the default 0.75 included).
   */
  lemma RegisteredFaceIsFound(face: DetectedFace, sqrt: real -> real, docs: seq<StudentDoc>, i: nat, threshold: real)
    requires IsSqrt(sqrt)
    requires RatiosDefined(face)
    requires i < |docs| && docs[i].faceEmbedding == Some(EmbeddingOf(face, sqrt))
    requires threshold <= 1.0
    ensures var query := EmbeddingOf(face, sqrt);
      var m := MatchOf(query, docs[i], sqrt);
      && m in Candidates(query, docs, threshold, sqrt)
      && m.similarity == 1.0
      && m.confidence == VeryHigh
  {
    EmbeddingNotZero(face, sqrt);
    RegisteredFaceFindsItself(EmbeddingOf(face, sqrt), docs, i, threshold, sqrt);
  }
}
