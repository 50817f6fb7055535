/**
 * The enhanced similarity scorer: cosine similarity of two embeddings, a
 * length-keyed match threshold, and a descriptive confidence tier. Inputs it
 * cannot compare get a fixed "no match" result instead of an error.
 */
module Similarity {
  import opened Wrappers
  import opened Numeric
  import opened Format

  datatype ConfidenceLevel = VeryLow | Low | Medium | High | VeryHigh

  datatype SimilarityResult = SimilarityResult(
    similarity: real,
    isMatch: bool,
    matchPercentage: string,
    thresholdUsed: real,
    confidenceLevel: ConfidenceLevel)

  /** What the scorer returns for a missing vector or for vectors of different lengths. */
  const NoMatch: SimilarityResult := SimilarityResult(0.0, false, "0.0", 0.75, VeryLow)

  /** Both vectors are present and have the same length. */
  predicate Comparable(vecA: Option<seq<real>>, vecB: Option<seq<real>>) {
    vecA.Some? && vecB.Some? && |vecA.value| == |vecB.value|
  }

  /** Sum of the products of corresponding elements, accumulated front to back. */
  function Dot(a: seq<real>, b: seq<real>): real
    requires |a| == |b|
  {
    if |a| == 0 then 0.0
    else Dot(a[..|a| - 1], b[..|b| - 1]) + a[|a| - 1] * b[|b| - 1]
  }

  /**
   * `dotProduct / (Math.sqrt(normA) * Math.sqrt(normB))`, or 0 when that
   * magnitude is not positive.
   */
  function Cosine(a: seq<real>, b: seq<real>, sqrt: real -> real): real
    requires |a| == |b|
    requires IsSqrt(sqrt)
  {
    var magnitude := sqrt(Dot(a, a)) * sqrt(Dot(b, b));
    if magnitude > 0.0 then Dot(a, b) / magnitude else 0.0
  }

  /** The match threshold for vectors of length n: 0.75 above 30 dimensions, else 0.6. */
  function Threshold(n: nat): real {
    if n > 30 then 0.75 else 0.6
  }

  /** The tier of a similarity score; each boundary belongs to the higher tier. */
  function Tier(similarity: real): (level: ConfidenceLevel)
    ensures level == VeryHigh <==> similarity >= 0.85
    ensures level == High <==> 0.75 <= similarity < 0.85
    ensures level == Medium <==> 0.65 <= similarity < 0.75
    ensures level == Low <==> 0.5 <= similarity < 0.65
    ensures level == VeryLow <==> similarity < 0.5
  {
    if similarity >= 0.85 then VeryHigh
    else if similarity >= 0.75 then High
    else if similarity >= 0.65 then Medium
    else if similarity >= 0.5 then Low
    else VeryLow
  }

  function TierRank(level: ConfidenceLevel): nat {
    match level
    case VeryLow => 0
    case Low => 1
    case Medium => 2
    case High => 3
    case VeryHigh => 4
  }

  /** The result `calculateEnhancedSimilarity` returns, as a function of its inputs. */
  function Score(vecA: Option<seq<real>>, vecB: Option<seq<real>>, sqrt: real -> real): SimilarityResult
    requires IsSqrt(sqrt)
  {
    if !Comparable(vecA, vecB) then NoMatch
    else
      var similarity := Cosine(vecA.value, vecB.value, sqrt);
      CosineBounded(vecA.value, vecB.value, sqrt);
      var threshold := Threshold(|vecA.value|);
      SimilarityResult(similarity, similarity >= threshold, ToFixed1(similarity * 100.0), threshold, Tier(similarity))
  }

  /**
   * What the scorer promises: the fixed no-match result for a missing vector
   * or different lengths; otherwise the cosine similarity, in [-1, 1], with
   * the length-keyed threshold, a match exactly at or above it, the tier of
   * the score, and the score times 100 written with one decimal.
   */
  lemma ScoreFacts(vecA: Option<seq<real>>, vecB: Option<seq<real>>, sqrt: real -> real)
    requires IsSqrt(sqrt)
    ensures var r := Score(vecA, vecB, sqrt);
      && (!Comparable(vecA, vecB) ==> r == NoMatch)
      && (Comparable(vecA, vecB) ==>
            && r.similarity == Cosine(vecA.value, vecB.value, sqrt)
            && -1.0 <= r.similarity <= 1.0
            && r.thresholdUsed == Threshold(|vecA.value|)
            && r.isMatch == (r.similarity >= r.thresholdUsed)
            && r.confidenceLevel == Tier(r.similarity)
            && r.matchPercentage == ToFixed1(r.similarity * 100.0))
  {
    if Comparable(vecA, vecB) {
      CosineBounded(vecA.value, vecB.value, sqrt);
    }
  }

  /** `calculateEnhancedSimilarity`. */
  method CalculateEnhancedSimilarity(vecA: Option<seq<real>>, vecB: Option<seq<real>>, sqrt: real -> real)
    returns (r: SimilarityResult)
    requires IsSqrt(sqrt)
    ensures r == Score(vecA, vecB, sqrt)
  {
    if vecA.None? || vecB.None? || |vecA.value| != |vecB.value| {
      return NoMatch;
    }
    var a, b := vecA.value, vecB.value;

    var similarity := CosineSimilarity(a, b, sqrt);

    var adjustedThreshold := if |a| > 30 then 0.75 else 0.6;
    var isMatch := similarity >= adjustedThreshold;

    var confidenceLevel := Low;
    if similarity >= 0.85 {
      confidenceLevel := VeryHigh;
    } else if similarity >= 0.75 {
      confidenceLevel := High;
    } else if similarity >= 0.65 {
      confidenceLevel := Medium;
    } else if similarity >= 0.5 {
      confidenceLevel := Low;
    } else {
      confidenceLevel := VeryLow;
    }
    assert confidenceLevel == Tier(similarity);
    assert adjustedThreshold == Threshold(|a|);

    r := SimilarityResult(similarity, isMatch, ToFixed1(similarity * 100.0), adjustedThreshold, confidenceLevel);
  }

  /** The loop over both vectors, then the guarded division by the product of the norms. */
  method CosineSimilarity(a: seq<real>, b: seq<real>, sqrt: real -> real) returns (similarity: real)
    requires |a| == |b|
    requires IsSqrt(sqrt)
    ensures similarity == Cosine(a, b, sqrt)
    ensures -1.0 <= similarity <= 1.0
  {
    var dotProduct, normA, normB := SumProducts(a, b);
    var magnitude := sqrt(normA) * sqrt(normB);
    similarity := if magnitude > 0.0 then dotProduct / magnitude else 0.0;
    CosineBounded(a, b, sqrt);
  }

  /** The single pass that accumulates the dot product and both squared norms. */
  method SumProducts(a: seq<real>, b: seq<real>) returns (dotProduct: real, normA: real, normB: real)
    requires |a| == |b|
    ensures dotProduct == Dot(a, b) && normA == Dot(a, a) && normB == Dot(b, b)
    ensures normA >= 0.0 && normB >= 0.0
  {
    dotProduct, normA, normB := 0.0, 0.0, 0.0;
    for i := 0 to |a|
      invariant dotProduct == Dot(a[..i], b[..i])
      invariant normA == Dot(a[..i], a[..i])
      invariant normB == Dot(b[..i], b[..i])
    {
      assert a[..i + 1][..i] == a[..i] && b[..i + 1][..i] == b[..i];
      dotProduct := dotProduct + a[i] * b[i];
      normA := normA + a[i] * a[i];
      normB := normB + b[i] * b[i];
    }
    assert a[..|a|] == a && b[..|b|] == b;
    DotSelfNonNegative(a);
    DotSelfNonNegative(b);
  }

  // ---------------------------------------------------------------------
  // Properties of the cosine similarity

  lemma {:induction false} DotSymmetric(a: seq<real>, b: seq<real>)
    requires |a| == |b|
    ensures Dot(a, b) == Dot(b, a)
  {
    if |a| > 0 {
      DotSymmetric(a[..|a| - 1], b[..|b| - 1]);
    }
  }

  lemma {:induction false} DotSelfNonNegative(a: seq<real>)
    ensures Dot(a, a) >= 0.0
  {
    if |a| > 0 {
      DotSelfNonNegative(a[..|a| - 1]);
    }
  }

  /** Vectors with no negative element never have a negative dot product. */
  lemma {:induction false} DotNonNegative(a: seq<real>, b: seq<real>)
    requires |a| == |b|
    requires forall i :: 0 <= i < |a| ==> a[i] >= 0.0 && b[i] >= 0.0
    ensures Dot(a, b) >= 0.0
  {
    if |a| > 0 {
      DotNonNegative(a[..|a| - 1], b[..|b| - 1]);
    }
  }

  /** Swapping the arguments does not change the similarity. */
  lemma CosineSymmetric(a: seq<real>, b: seq<real>, sqrt: real -> real)
    requires |a| == |b|
    requires IsSqrt(sqrt)
    ensures Cosine(a, b, sqrt) == Cosine(b, a, sqrt)
  {
    DotSymmetric(a, b);
    assert sqrt(Dot(a, a)) * sqrt(Dot(b, b)) == sqrt(Dot(b, b)) * sqrt(Dot(a, a));
  }

  /** The whole result, not only the score, is the same with the arguments swapped. */
  lemma ScoreSymmetric(vecA: Option<seq<real>>, vecB: Option<seq<real>>, sqrt: real -> real)
    requires IsSqrt(sqrt)
    ensures Score(vecA, vecB, sqrt) == Score(vecB, vecA, sqrt)
  {
    if Comparable(vecA, vecB) {
      CosineSymmetric(vecA.value, vecB.value, sqrt);
    }
  }

  /** A vector that is not all zeros is perfectly similar to itself. */
  lemma SelfSimilarity(a: seq<real>, sqrt: real -> real)
    requires IsSqrt(sqrt)
    requires Dot(a, a) > 0.0
    ensures Cosine(a, a, sqrt) == 1.0
  {
    var n := Dot(a, a);
    var s := sqrt(n);
    assert s * s == n;
    DivSelf(n);
  }

  lemma DivSelf(x: real)
    requires x != 0.0
    ensures x / x == 1.0
  {
  }

  /** An all-zero (zero-magnitude) vector gives similarity 0, with no division. */
  lemma ZeroMagnitude(a: seq<real>, b: seq<real>, sqrt: real -> real)
    requires |a| == |b|
    requires IsSqrt(sqrt)
    requires Dot(a, a) == 0.0
    ensures Cosine(a, b, sqrt) == 0.0 && Cosine(b, a, sqrt) == 0.0
  {
    var s := sqrt(0.0);
    ZeroFactor(s, s);
    DotSelfNonNegative(b);
    var sb := sqrt(Dot(b, b));
    assert s * sb == 0.0 && sb * s == 0.0;
  }

  lemma ZeroFactor(p: real, q: real)
    requires p >= 0.0 && q >= 0.0 && p * q == 0.0
    ensures p == 0.0 || q == 0.0
  {
  }

  /** Sum over i of (t * a[i] - b[i])^2. */
  ghost function SumSqDiff(a: seq<real>, b: seq<real>, t: real): real
    requires |a| == |b|
  {
    if |a| == 0 then 0.0
    else SumSqDiff(a[..|a| - 1], b[..|b| - 1], t) + Square(t * a[|a| - 1] - b[|b| - 1])
  }

  lemma {:induction false} SumSqDiffNonNegative(a: seq<real>, b: seq<real>, t: real)
    requires |a| == |b|
    ensures SumSqDiff(a, b, t) >= 0.0
  {
    if |a| > 0 {
      SumSqDiffNonNegative(a[..|a| - 1], b[..|b| - 1], t);
      SquareNonNegative(t * a[|a| - 1] - b[|b| - 1]);
    }
  }

  function Square(d: real): real {
    d * d
  }

  lemma SquareNonNegative(d: real)
    ensures Square(d) >= 0.0
  {
  }

  /** The quadratic t^2 * aa - 2t * ab + bb in the three dot products. */
  function Quad(t: real, aa: real, ab: real, bb: real): real {
    (t * t) * aa - 2.0 * t * ab + bb
  }

  /** One step of the expansion, on scalars: adding (t*x - y)^2 to the quadratic of a prefix. */
  lemma ExpandStep(t: real, x: real, y: real, aa: real, ab: real, bb: real)
    ensures Quad(t, aa, ab, bb) + Square(t * x - y) == Quad(t, aa + x * x, ab + x * y, bb + y * y)
  {
    SquareExpand(t, x, y);
  }

  /** (t*x - y)^2 multiplied out. */
  lemma SquareExpand(t: real, x: real, y: real)
    ensures Square(t * x - y) == (t * t) * (x * x) - 2.0 * t * (x * y) + y * y
  {
  }

  lemma {:induction false} SumSqDiffExpand(a: seq<real>, b: seq<real>, t: real)
    requires |a| == |b|
    ensures SumSqDiff(a, b, t) == (t * t) * Dot(a, a) - 2.0 * t * Dot(a, b) + Dot(b, b)
  {
    SumSqDiffQuad(a, b, t);
  }

  lemma {:induction false} SumSqDiffQuad(a: seq<real>, b: seq<real>, t: real)
    requires |a| == |b|
    ensures SumSqDiff(a, b, t) == Quad(t, Dot(a, a), Dot(a, b), Dot(b, b))
  {
    if |a| == 0 {
      assert SumSqDiff(a, b, t) == 0.0 && Dot(a, a) == 0.0 && Dot(a, b) == 0.0 && Dot(b, b) == 0.0;
    } else {
      SumSqDiffQuad(a[..|a| - 1], b[..|b| - 1], t);
      SumSqDiffExpandStep(a, b, t);
    }
  }

  /** The inductive step of the expansion: from the prefixes to the whole vectors. */
  lemma {:induction false} SumSqDiffExpandStep(a: seq<real>, b: seq<real>, t: real)
    requires |a| == |b| > 0
    requires var a', b' := a[..|a| - 1], b[..|b| - 1];
      SumSqDiff(a', b', t) == Quad(t, Dot(a', a'), Dot(a', b'), Dot(b', b'))
    ensures SumSqDiff(a, b, t) == Quad(t, Dot(a, a), Dot(a, b), Dot(b, b))
  {
    SumSqDiffAddLast(a, b, t);
    QuadOfUnfoldedDots(a, b, t);
  }

  /** Adding the last square to the prefix's quadratic. */
  lemma SumSqDiffAddLast(a: seq<real>, b: seq<real>, t: real)
    requires |a| == |b| > 0
    requires var a', b' := a[..|a| - 1], b[..|b| - 1];
      SumSqDiff(a', b', t) == Quad(t, Dot(a', a'), Dot(a', b'), Dot(b', b'))
    ensures var a', b', x, y := a[..|a| - 1], b[..|b| - 1], a[|a| - 1], b[|b| - 1];
      SumSqDiff(a, b, t) == Quad(t, Dot(a', a') + x * x, Dot(a', b') + x * y, Dot(b', b') + y * y)
  {
    var a', b', x, y := a[..|a| - 1], b[..|b| - 1], a[|a| - 1], b[|b| - 1];
    SumSqDiffUnfold(a, b, t);
    ExpandStep(t, x, y, Dot(a', a'), Dot(a', b'), Dot(b', b'));
  }

  /** The quadratic of the prefix dot products with the last terms added is that of the whole vectors. */
  lemma QuadOfUnfoldedDots(a: seq<real>, b: seq<real>, t: real)
    requires |a| == |b| > 0
    ensures var a', b', x, y := a[..|a| - 1], b[..|b| - 1], a[|a| - 1], b[|b| - 1];
      Quad(t, Dot(a', a') + x * x, Dot(a', b') + x * y, Dot(b', b') + y * y) == Quad(t, Dot(a, a), Dot(a, b), Dot(b, b))
  {
    DotUnfold(a, a);
    DotUnfold(a, b);
    DotUnfold(b, b);
  }

  lemma SumSqDiffUnfold(a: seq<real>, b: seq<real>, t: real)
    requires |a| == |b| > 0
    ensures SumSqDiff(a, b, t) ==
      SumSqDiff(a[..|a| - 1], b[..|b| - 1], t) + Square(t * a[|a| - 1] - b[|b| - 1])
  {
  }

  lemma DotUnfold(a: seq<real>, b: seq<real>)
    requires |a| == |b| > 0
    ensures Dot(a, b) == Dot(a[..|a| - 1], b[..|b| - 1]) + a[|a| - 1] * b[|b| - 1]
  {
  }

  /** With a zero first norm, the quadratic at this t is -1. */
  lemma ZeroNormWitness(ab: real, bb: real)
    requires ab != 0.0
    ensures var t := (bb + 1.0) / (2.0 * ab);
      (t * t) * 0.0 - 2.0 * t * ab + bb == -1.0
  {
    var t := (bb + 1.0) / (2.0 * ab);
    assert t * (2.0 * ab) == bb + 1.0;
  }

  /** The quadratic at its minimum is non-negative only if ab^2 <= aa * bb. */
  lemma PositiveNormCase(aa: real, ab: real, bb: real)
    requires aa > 0.0
    requires var t := ab / aa; (t * t) * aa - 2.0 * t * ab + bb >= 0.0
    ensures ab * ab <= aa * bb
  {
    var t := ab / aa;
    assert t * aa == ab;
    assert (t * t) * aa == t * ab;
    assert bb - t * ab >= 0.0;
    assert (t * ab) * aa == ab * ab;
    NonNegativeProduct(bb - t * ab, aa);
    assert (bb - t * ab) * aa == bb * aa - ab * ab;
  }

  lemma NonNegativeProduct(p: real, q: real)
    requires p >= 0.0 && q > 0.0
    ensures p * q >= 0.0
  {
  }

  /** Cauchy-Schwarz: the squared dot product is at most the product of the squared norms. */
  lemma CauchySchwarz(a: seq<real>, b: seq<real>)
    requires |a| == |b|
    ensures Dot(a, b) * Dot(a, b) <= Dot(a, a) * Dot(b, b)
  {
    var aa, ab, bb := Dot(a, a), Dot(a, b), Dot(b, b);
    DotSelfNonNegative(a);
    DotSelfNonNegative(b);
    if aa == 0.0 {
      if ab != 0.0 {
        SumSqDiffExpand(a, b, (bb + 1.0) / (2.0 * ab));
        SumSqDiffNonNegative(a, b, (bb + 1.0) / (2.0 * ab));
        ZeroNormWitness(ab, bb);
        assert false;
      }
    } else {
      SumSqDiffExpand(a, b, ab / aa);
      SumSqDiffNonNegative(a, b, ab / aa);
      PositiveNormCase(aa, ab, bb);
    }
  }

  /** The similarity always lies in [-1, 1]. */
  lemma CosineBounded(a: seq<real>, b: seq<real>, sqrt: real -> real)
    requires |a| == |b|
    requires IsSqrt(sqrt)
    ensures -1.0 <= Cosine(a, b, sqrt) <= 1.0
  {
    DotSelfNonNegative(a);
    DotSelfNonNegative(b);
    CauchySchwarz(a, b);
    QuotientOfRootsBounded(Dot(a, b), Dot(a, a), Dot(b, b), sqrt(Dot(a, a)), sqrt(Dot(b, b)));
  }

  /** The scalar core of the bound: |ab| / (sqrt(aa) * sqrt(bb)) <= 1 when ab^2 <= aa * bb. */
  lemma QuotientOfRootsBounded(ab: real, aa: real, bb: real, sa: real, sb: real)
    requires ab * ab <= aa * bb
    requires sa >= 0.0 && sa * sa == aa && sb >= 0.0 && sb * sb == bb
    ensures sa * sb > 0.0 ==> -1.0 <= ab / (sa * sb) <= 1.0
  {
    var m := sa * sb;
    if m > 0.0 {
      ProductOfRoots(sa, sb, aa, bb);
      BoundFromSquares(ab, m);
      QuotientBound(ab, m);
    }
  }

  /** The square of a product of two square roots is the product of the radicands. */
  lemma ProductOfRoots(sa: real, sb: real, aa: real, bb: real)
    requires sa * sa == aa && sb * sb == bb
    ensures (sa * sb) * (sa * sb) == aa * bb
  {
    assert (sa * sb) * (sa * sb) == (sa * sa) * (sb * sb);
  }

  lemma BoundFromSquares(d: real, m: real)
    requires m > 0.0
    requires d * d <= m * m
    ensures -m <= d <= m
  {
    assert (d - m) * (d + m) == d * d - m * m;
    if d > m {
      SignOfProduct(d - m, d + m);
      assert false;
    } else if d < -m {
      SignOfProduct(m - d, -(d + m));
      assert false;
    }
  }

  lemma QuotientBound(d: real, m: real)
    requires m > 0.0
    requires -m <= d <= m
    ensures -1.0 <= d / m <= 1.0
  {
    var q := d / m;
    assert q * m == d;
    SignOfProduct(q - 1.0, m);
    SignOfProduct(q + 1.0, m);
  }

  /** Vectors with no negative element, such as the builder's, have similarity in [0, 1]. */
  lemma NonNegativeVectorsSimilarity(a: seq<real>, b: seq<real>, sqrt: real -> real)
    requires |a| == |b|
    requires IsSqrt(sqrt)
    requires forall i :: 0 <= i < |a| ==> a[i] >= 0.0 && b[i] >= 0.0
    ensures 0.0 <= Cosine(a, b, sqrt) <= 1.0
  {
    DotNonNegative(a, b);
    CosineBounded(a, b, sqrt);
    var m := sqrt(Dot(a, a)) * sqrt(Dot(b, b));
    if m > 0.0 {
      var q := Dot(a, b) / m;
      assert q * m == Dot(a, b);
      SignOfProduct(q, m);
    }
  }

  /**
   * Comparing a non-zero embedding with itself is a match at either
   * threshold, and in the very_high tier.
   */
  lemma SelfComparison(a: seq<real>, sqrt: real -> real)
    requires IsSqrt(sqrt)
    requires Dot(a, a) > 0.0
    ensures Cosine(a, a, sqrt) >= Threshold(|a|)
    ensures Tier(Cosine(a, a, sqrt)) == VeryHigh
  {
    SelfSimilarity(a, sqrt);
  }

  /** A higher score never gets a lower tier. */
  lemma TierMonotone(s1: real, s2: real)
    requires s1 <= s2
    ensures TierRank(Tier(s1)) <= TierRank(Tier(s2))
  {
  }
}
