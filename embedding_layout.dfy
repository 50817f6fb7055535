/**
 * What the builder's output looks like: its length for every combination of
 * detected landmarks, where each block sits, and the range of its values.
 */
module EmbeddingLayout {
  import opened Wrappers
  import opened Numeric
  import opened Face
  import opened Likelihood
  import opened Embedding

  predicate InUnitRange(s: seq<real>) {
    forall i :: 0 <= i < |s| ==> 0.0 <= s[i] <= 1.0
  }

  /** How many values the face-proportions section contributes. */
  function RatioCount(face: DetectedFace): nat {
    var ls := face.landmarks;
    if |ls| < 3 then 8
    else
      var eyes := Has(ls, "LEFT_EYE") && Has(ls, "RIGHT_EYE");
      2 + (if eyes then 2 else 0)
        + (if eyes && Has(ls, "NOSE_TIP") then 2 else 0)
        + (if Has(ls, "MOUTH_CENTER") && Has(ls, "NOSE_TIP") then 1 else 0)
  }

  lemma LandmarkTypesCount()
    ensures |LandmarkTypes| == 27
  {
  }

  lemma {:induction false} LandmarkBlockLength(ls: seq<Landmark>, kinds: seq<string>)
    ensures |LandmarkBlock(ls, kinds)| == 3 * |kinds|
  {
    if |kinds| > 0 {
      LandmarkBlockLength(ls, kinds[..|kinds| - 1]);
    }
  }

  lemma {:induction false} LandmarkBlockAt(ls: seq<Landmark>, kinds: seq<string>, k: nat)
    requires k < |kinds|
    ensures |LandmarkBlock(ls, kinds)| == 3 * |kinds|
    ensures LandmarkBlock(ls, kinds)[3 * k .. 3 * k + 3] == Triple(Find(ls, kinds[k]))
  {
    var n := |kinds|;
    var front := kinds[..n - 1];
    var head := LandmarkBlock(ls, front);
    var last := Triple(Find(ls, kinds[n - 1]));
    LandmarkBlockLength(ls, kinds);
    LandmarkBlockLength(ls, front);
    assert LandmarkBlock(ls, kinds) == head + last;
    if k == n - 1 {
      SliceOfTail(head, last);
    } else {
      LandmarkBlockAt(ls, front, k);
      assert front[k] == kinds[k];
      SliceOfHead(head, last, 3 * k, 3 * k + 3);
    }
  }

  lemma SliceOfHead<T>(head: seq<T>, tail: seq<T>, lo: nat, hi: nat)
    requires lo <= hi <= |head|
    ensures (head + tail)[lo..hi] == head[lo..hi]
  {
  }

  lemma SliceOfTail<T>(head: seq<T>, tail: seq<T>)
    ensures (head + tail)[|head|..|head| + |tail|] == tail
  {
  }

  lemma {:induction false} LandmarkBlockInUnitRange(ls: seq<Landmark>, kinds: seq<string>)
    ensures InUnitRange(LandmarkBlock(ls, kinds))
  {
    if |kinds| > 0 {
      LandmarkBlockInUnitRange(ls, kinds[..|kinds| - 1]);
    }
  }

  lemma EyeRatiosFacts(face: DetectedFace, sqrt: real -> real)
    requires IsSqrt(sqrt)
    requires SizesDefined(face)
    ensures var eyes := Has(face.landmarks, "LEFT_EYE") && Has(face.landmarks, "RIGHT_EYE");
      |EyeRatios(face, sqrt)| == if eyes then 2 else 0
    ensures InUnitRange(EyeRatios(face, sqrt))
  {
  }

  lemma NoseRatiosFacts(face: DetectedFace)
    requires SizesDefined(face)
    ensures var ls := face.landmarks;
      var present := Has(ls, "LEFT_EYE") && Has(ls, "RIGHT_EYE") && Has(ls, "NOSE_TIP");
      |NoseRatios(face)| == if present then 2 else 0
    ensures InUnitRange(NoseRatios(face))
  {
  }

  lemma MouthRatioFacts(face: DetectedFace, sqrt: real -> real)
    requires IsSqrt(sqrt)
    requires face.bounds.height != 0.0
    ensures var present := Has(face.landmarks, "MOUTH_CENTER") && Has(face.landmarks, "NOSE_TIP");
      |MouthRatio(face, sqrt)| == if present then 1 else 0
    ensures InUnitRange(MouthRatio(face, sqrt))
  {
  }

  lemma RatioBlockFacts(face: DetectedFace, sqrt: real -> real)
    requires IsSqrt(sqrt)
    requires RatiosDefined(face)
    ensures |RatioBlock(face, sqrt)| == RatioCount(face)
    ensures InUnitRange(RatioBlock(face, sqrt))
    ensures |face.landmarks| < 3 ==> RatioBlock(face, sqrt) == [0.0, 0.0, 0.0, 0.0, 0.0, 0.0, 0.0, 0.0]
  {
    if |face.landmarks| >= 3 {
      var eyes := EyeRatios(face, sqrt);
      var nose := NoseRatios(face);
      var mouth := MouthRatio(face, sqrt);
      var shape := ShapeRatios(face);
      EyeRatiosFacts(face, sqrt);
      NoseRatiosFacts(face);
      MouthRatioFacts(face, sqrt);
      var block := eyes + nose + mouth + shape;
      assert RatioBlock(face, sqrt) == block;
      forall i | 0 <= i < |block|
        ensures 0.0 <= block[i] <= 1.0
      {
        if i < |eyes| {
          assert block[i] == eyes[i];
        } else if i < |eyes| + |nose| {
          assert block[i] == nose[i - |eyes|];
        } else if i < |eyes| + |nose| + |mouth| {
          assert block[i] == mouth[i - |eyes| - |nose|];
        } else {
          assert block[i] == shape[i - |eyes| - |nose| - |mouth|];
        }
      }
    }
  }

  /**
   * The embedding holds 5 + 81 + RatioCount + 6 values: 100 when fewer than
   * three landmarks were detected, and between 94 and 99 otherwise.
   */
  lemma EmbeddingLength(face: DetectedFace, sqrt: real -> real)
    requires IsSqrt(sqrt)
    requires RatiosDefined(face)
    ensures |EmbeddingOf(face, sqrt)| == 92 + RatioCount(face)
    ensures 94 <= |EmbeddingOf(face, sqrt)| <= 100
    ensures |face.landmarks| < 3 <==> |EmbeddingOf(face, sqrt)| == 100
  {
    LandmarkBlockLength(face.landmarks, LandmarkTypes);
    RatioBlockFacts(face, sqrt);
    var geometry, block := GeometryBlock(face), LandmarkBlock(face.landmarks, LandmarkTypes);
    var ratios, likelihoods := RatioBlock(face, sqrt), LikelihoodBlock(face);
    assert |EmbeddingOf(face, sqrt)| == |geometry| + |block| + |ratios| + |likelihoods|;
  }

  /**
   * Where each block sits: the geometry first, then one triple per landmark
   * type in the fixed order, then the ratios, then the six likelihoods.
   */
  lemma EmbeddingBlocks(face: DetectedFace, sqrt: real -> real)
    requires IsSqrt(sqrt)
    requires RatiosDefined(face)
    ensures var e := EmbeddingOf(face, sqrt);
      && |e| == RatioBlockStart + RatioCount(face) + 6
      && e[..LandmarkBlockStart] == GeometryBlock(face)
      && e[RatioBlockStart .. |e| - 6] == RatioBlock(face, sqrt)
      && e[|e| - 6..] == LikelihoodBlock(face)
  {
    EmbeddingLength(face, sqrt);
    LandmarkBlockAt(face.landmarks, LandmarkTypes, 0);
  }

  /** The three values of landmark type k are the triple of the first landmark of that type. */
  lemma SlotIsTriple(face: DetectedFace, sqrt: real -> real, k: nat)
    requires IsSqrt(sqrt)
    requires RatiosDefined(face)
    requires k < |LandmarkTypes|
    ensures var e := EmbeddingOf(face, sqrt);
      var start := LandmarkBlockStart + 3 * k;
      && start + 3 <= |e|
      && e[start .. start + 3] == Triple(Find(face.landmarks, LandmarkTypes[k]))
  {
    var geometry := GeometryBlock(face);
    var block := LandmarkBlock(face.landmarks, LandmarkTypes);
    var rest := RatioBlock(face, sqrt) + LikelihoodBlock(face);
    assert EmbeddingOf(face, sqrt) == geometry + block + rest;
    LandmarkBlockAt(face.landmarks, LandmarkTypes, k);
    SliceOfMiddle(geometry, block, rest, 3 * k, 3 * k + 3);
  }

  /**
   * The triple of landmark type k: the clamp-normalised x, y (range 0..2000)
   * and z (range -1000..1000) of the first landmark of that type, or three
   * zeros when no landmark of that type was detected.
   */
  lemma LandmarkSlot(face: DetectedFace, sqrt: real -> real, k: nat)
    requires IsSqrt(sqrt)
    requires RatiosDefined(face)
    requires k < |LandmarkTypes|
    ensures var e := EmbeddingOf(face, sqrt);
      var ls := face.landmarks;
      var i := FirstIndexOf(ls, LandmarkTypes[k]);
      && |e| > LandmarkBlockStart + 3 * k + 2
      && (Has(ls, LandmarkTypes[k]) ==>
            && i < |ls|
            && e[LandmarkBlockStart + 3 * k] == NormalizeValue(ls[i].x, 0.0, 2000.0)
            && e[LandmarkBlockStart + 3 * k + 1] == NormalizeValue(ls[i].y, 0.0, 2000.0)
            && e[LandmarkBlockStart + 3 * k + 2] == NormalizeValue(ls[i].z, -1000.0, 1000.0))
      && (!Has(ls, LandmarkTypes[k]) ==>
            e[LandmarkBlockStart + 3 * k .. LandmarkBlockStart + 3 * k + 3] == [0.0, 0.0, 0.0])
  {
    SlotIsTriple(face, sqrt, k);
    var e := EmbeddingOf(face, sqrt);
    var start := LandmarkBlockStart + 3 * k;
    var slot := e[start .. start + 3];
    assert e[start] == slot[0] && e[start + 1] == slot[1] && e[start + 2] == slot[2];
  }

  /**
   * Every value is in [0, 1] except the detection confidence at index 4,
   * which is copied through unchanged.
   */
  lemma EmbeddingRange(face: DetectedFace, sqrt: real -> real)
    requires IsSqrt(sqrt)
    requires RatiosDefined(face)
    ensures var e := EmbeddingOf(face, sqrt);
      && e[4] == face.detectionConfidence
      && forall i :: 0 <= i < |e| && i != 4 ==> 0.0 <= e[i] <= 1.0
  {
    var geometry := GeometryBlock(face);
    var landmarks := LandmarkBlock(face.landmarks, LandmarkTypes);
    var ratios := RatioBlock(face, sqrt);
    var likelihoods := LikelihoodBlock(face);
    LandmarkBlockInUnitRange(face.landmarks, LandmarkTypes);
    RatioBlockFacts(face, sqrt);
    assert InUnitRange(likelihoods);
    var e := geometry + landmarks + ratios + likelihoods;
    forall i | 0 <= i < |e| && i != 4
      ensures 0.0 <= e[i] <= 1.0
    {
      if i < |geometry| {
        assert e[i] == geometry[i];
      } else if i < |geometry| + |landmarks| {
        assert e[i] == landmarks[i - |geometry|];
      } else if i < |geometry| + |landmarks| + |ratios| {
        assert e[i] == ratios[i - |geometry| - |landmarks|];
      } else {
        assert e[i] == likelihoods[i - |geometry| - |landmarks| - |ratios|];
      }
    }
  }

  /**
   * A face on which only the two eye centres were detected, in either order,
   * still gets a full-length embedding: both eye triples, zeros for the other
   * 25 types, and the eight-zero ratio block.
   */
  lemma EyesOnlyFace(face: DetectedFace, sqrt: real -> real)
    requires IsSqrt(sqrt)
    requires |face.landmarks| == 2
    requires Has(face.landmarks, "LEFT_EYE") && Has(face.landmarks, "RIGHT_EYE")
    ensures var e := EmbeddingOf(face, sqrt);
      && |e| == 100
      && e[5..8] == Triple(Find(face.landmarks, "LEFT_EYE"))
      && e[8..11] == Triple(Find(face.landmarks, "RIGHT_EYE"))
      && (forall k :: 2 <= k < 27 ==> e[5 + 3 * k .. 8 + 3 * k] == [0.0, 0.0, 0.0])
      && e[86..94] == [0.0, 0.0, 0.0, 0.0, 0.0, 0.0, 0.0, 0.0]
  {
    var e := EmbeddingOf(face, sqrt);
    var ls := face.landmarks;
    EmbeddingLength(face, sqrt);
    EmbeddingBlocks(face, sqrt);
    SlotIsTriple(face, sqrt, 0);
    SlotIsTriple(face, sqrt, 1);
    BothLandmarksAreEyes(ls);
    forall k | 2 <= k < 27
      ensures e[5 + 3 * k .. 8 + 3 * k] == [0.0, 0.0, 0.0]
    {
      assert LandmarkTypes[k] != "LEFT_EYE" && LandmarkTypes[k] != "RIGHT_EYE";
      SlotIsTriple(face, sqrt, k);
      assert Find(ls, LandmarkTypes[k]) == None;
    }
  }

  /** Two landmarks, a left eye and a right eye among them: each of the two is an eye. */
  lemma BothLandmarksAreEyes(ls: seq<Landmark>)
    requires |ls| == 2
    requires Has(ls, "LEFT_EYE") && Has(ls, "RIGHT_EYE")
    ensures forall j :: 0 <= j < 2 ==> ls[j].kind == "LEFT_EYE" || ls[j].kind == "RIGHT_EYE"
  {
    var l, r := FirstIndexOf(ls, "LEFT_EYE"), FirstIndexOf(ls, "RIGHT_EYE");
    assert "LEFT_EYE" != "RIGHT_EYE";
    assert l < 2 && r < 2 && l != r;
  }

  /**
   * When eyes, nose tip and mouth centre were all detected (and at least
   * three landmarks in all), the ratio block holds all seven ratios.
   */
  lemma FullFaceLength(face: DetectedFace, sqrt: real -> real)
    requires IsSqrt(sqrt)
    requires RatiosDefined(face)
    requires |face.landmarks| >= 3
    requires Has(face.landmarks, "LEFT_EYE") && Has(face.landmarks, "RIGHT_EYE")
    requires Has(face.landmarks, "NOSE_TIP") && Has(face.landmarks, "MOUTH_CENTER")
    ensures |EmbeddingOf(face, sqrt)| == 99
  {
    EmbeddingLength(face, sqrt);
  }

  /** A slice that lies inside the middle part of a concatenation. */
  lemma SliceOfMiddle(a: seq<real>, b: seq<real>, c: seq<real>, lo: nat, hi: nat)
    requires lo <= hi <= |b|
    ensures (a + b + c)[|a| + lo .. |a| + hi] == b[lo..hi]
  {
  }
}
