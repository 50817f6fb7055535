/**
 * The enhanced embedding builder: a detected face becomes an ordered list of
 * reals made of four blocks, geometry (5), landmarks (27 x 3), geometric
 * ratios (2 to 8) and likelihoods (6).
 */
module Embedding {
  import opened Wrappers
  import opened Numeric
  import opened Face
  import opened Likelihood

  /** The fixed order in which landmark types enter the embedding. */
  const LandmarkTypes: seq<string> := [
    "LEFT_EYE", "RIGHT_EYE",
    "LEFT_EYE_TOP_BOUNDARY", "LEFT_EYE_RIGHT_CORNER", "LEFT_EYE_BOTTOM_BOUNDARY", "LEFT_EYE_LEFT_CORNER",
    "RIGHT_EYE_TOP_BOUNDARY", "RIGHT_EYE_RIGHT_CORNER", "RIGHT_EYE_BOTTOM_BOUNDARY", "RIGHT_EYE_LEFT_CORNER",
    "LEFT_EYEBROW_UPPER_MIDPOINT", "RIGHT_EYEBROW_UPPER_MIDPOINT",
    "NOSE_TIP", "NOSE_BOTTOM_RIGHT", "NOSE_BOTTOM_LEFT", "NOSE_BOTTOM_CENTER",
    "UPPER_LIP", "LOWER_LIP", "MOUTH_LEFT", "MOUTH_RIGHT", "MOUTH_CENTER",
    "LEFT_EAR_TRAGION", "RIGHT_EAR_TRAGION",
    "FOREHEAD_GLABELLA", "CHIN_GNATHION", "LEFT_CHEEK_CENTER", "RIGHT_CHEEK_CENTER"]

  const LandmarkBlockStart: nat := 5
  const RatioBlockStart: nat := 86

  /** Both eye centres were detected; only then is the width a divisor. */
  predicate EyesFound(face: DetectedFace) {
    Has(face.landmarks, "LEFT_EYE") && Has(face.landmarks, "RIGHT_EYE")
  }

  /**
   * The divisors of the ratio section are non-zero: the height always (the
   * aspect ratio divides by it), the width only when both eyes were detected.
   * A zero divisor there gives NaN or Infinity, which the model does not carry.
   */
  predicate SizesDefined(face: DetectedFace) {
    face.bounds.height != 0.0 && (EyesFound(face) ==> face.bounds.width != 0.0)
  }

  /** The ratio section runs only with at least three landmarks. */
  predicate RatiosDefined(face: DetectedFace) {
    |face.landmarks| >= 3 ==> SizesDefined(face)
  }

  /** Block 1: the bounding box clamp-normalised, then the raw detection confidence. */
  function GeometryBlock(face: DetectedFace): seq<real> {
    [NormalizeValue(face.bounds.x, 0.0, 2000.0),
     NormalizeValue(face.bounds.y, 0.0, 2000.0),
     NormalizeValue(face.bounds.width, 0.0, 1000.0),
     NormalizeValue(face.bounds.height, 0.0, 1000.0),
     face.detectionConfidence]
  }

  /** The three values one landmark type contributes; zeros when it is missing. */
  function Triple(landmark: Option<Landmark>): seq<real> {
    match landmark
    case Some(l) =>
      [NormalizeValue(l.x, 0.0, 2000.0), NormalizeValue(l.y, 0.0, 2000.0), NormalizeValue(l.z, -1000.0, 1000.0)]
    case None => [0.0, 0.0, 0.0]
  }

  /** Block 2 for the given list of types: their triples, in the list's order. */
  function LandmarkBlock(ls: seq<Landmark>, kinds: seq<string>): seq<real> {
    if |kinds| == 0 then []
    else LandmarkBlock(ls, kinds[..|kinds| - 1]) + Triple(Find(ls, kinds[|kinds| - 1]))
  }

  // The raw ratios of the face-proportions section, named as in the source.

  function EyeDistanceRatio(leftEye: Landmark, rightEye: Landmark, width: real, sqrt: real -> real): real
    requires IsSqrt(sqrt)
    requires width != 0.0
  {
    Distance(leftEye, rightEye, sqrt) / width
  }

  function EyeLevelDiff(leftEye: Landmark, rightEye: Landmark, height: real): real
    requires height != 0.0
  {
    Abs(leftEye.y - rightEye.y) / height
  }

  function NoseOffsetX(nose: Landmark, leftEye: Landmark, rightEye: Landmark, width: real): real
    requires width != 0.0
  {
    var eyeCenterX := (leftEye.x + rightEye.x) / 2.0;
    Abs(nose.x - eyeCenterX) / width
  }

  function NoseOffsetY(nose: Landmark, leftEye: Landmark, rightEye: Landmark, height: real): real
    requires height != 0.0
  {
    var eyeCenterY := (leftEye.y + rightEye.y) / 2.0;
    (nose.y - eyeCenterY) / height
  }

  function MouthNoseRatio(mouth: Landmark, nose: Landmark, height: real, sqrt: real -> real): real
    requires IsSqrt(sqrt)
    requires height != 0.0
  {
    Distance(mouth, nose, sqrt) / height
  }

  function FaceAspectRatio(bounds: Bounds): real
    requires bounds.height != 0.0
  {
    bounds.width / bounds.height
  }

  function FaceArea(bounds: Bounds): real {
    (bounds.width * bounds.height) / 1000000.0
  }

  /** Eye-distance ratio and eye-level asymmetry, when both eyes were detected. */
  function EyeRatios(face: DetectedFace, sqrt: real -> real): seq<real>
    requires IsSqrt(sqrt)
    requires SizesDefined(face)
  {
    var leftEye := Find(face.landmarks, "LEFT_EYE");
    var rightEye := Find(face.landmarks, "RIGHT_EYE");
    if leftEye.Some? && rightEye.Some? then
      [NormalizeValue(EyeDistanceRatio(leftEye.value, rightEye.value, face.bounds.width, sqrt), 0.1, 0.8),
       NormalizeValue(EyeLevelDiff(leftEye.value, rightEye.value, face.bounds.height), 0.0, 0.2)]
    else []
  }

  /** Nose offsets from the point between the eyes, when the nose tip and both eyes were detected. */
  function NoseRatios(face: DetectedFace): seq<real>
    requires SizesDefined(face)
  {
    var leftEye := Find(face.landmarks, "LEFT_EYE");
    var rightEye := Find(face.landmarks, "RIGHT_EYE");
    var nose := Find(face.landmarks, "NOSE_TIP");
    if nose.Some? && leftEye.Some? && rightEye.Some? then
      [NormalizeValue(NoseOffsetX(nose.value, leftEye.value, rightEye.value, face.bounds.width), 0.0, 0.3),
       NormalizeValue(NoseOffsetY(nose.value, leftEye.value, rightEye.value, face.bounds.height), 0.1, 0.5)]
    else []
  }

  /** Mouth-to-nose distance ratio, when the mouth centre and the nose tip were detected. */
  function MouthRatio(face: DetectedFace, sqrt: real -> real): seq<real>
    requires IsSqrt(sqrt)
    requires face.bounds.height != 0.0
  {
    var nose := Find(face.landmarks, "NOSE_TIP");
    var mouth := Find(face.landmarks, "MOUTH_CENTER");
    if mouth.Some? && nose.Some? then
      [NormalizeValue(MouthNoseRatio(mouth.value, nose.value, face.bounds.height, sqrt), 0.1, 0.4)]
    else []
  }

  /** Aspect ratio and normalised area of the bounding box. */
  function ShapeRatios(face: DetectedFace): seq<real>
    requires face.bounds.height != 0.0
  {
    [NormalizeValue(FaceAspectRatio(face.bounds), 0.5, 1.5),
     NormalizeValue(FaceArea(face.bounds), 0.01, 0.5)]
  }

  /** Block 3: the geometric ratios, or eight zeros when fewer than three landmarks were detected. */
  function RatioBlock(face: DetectedFace, sqrt: real -> real): seq<real>
    requires IsSqrt(sqrt)
    requires RatiosDefined(face)
  {
    if |face.landmarks| >= 3 then
      EyeRatios(face, sqrt) + NoseRatios(face) + MouthRatio(face, sqrt) + ShapeRatios(face)
    else
      [0.0, 0.0, 0.0, 0.0, 0.0, 0.0, 0.0, 0.0]
  }

  /** Block 4: four emotion values, then blur and under-exposure quality. */
  function LikelihoodBlock(face: DetectedFace): seq<real> {
    [EmotionalLikelihoodToNumber(face.joy),
     EmotionalLikelihoodToNumber(face.sorrow),
     EmotionalLikelihoodToNumber(face.anger),
     EmotionalLikelihoodToNumber(face.surprise),
     QualityLikelihoodToNumber(face.blurred),
     QualityLikelihoodToNumber(face.underExposed)]
  }

  /** The embedding `createEnhancedEmbeddingFromFace` produces, block after block. */
  function EmbeddingOf(face: DetectedFace, sqrt: real -> real): seq<real>
    requires IsSqrt(sqrt)
    requires RatiosDefined(face)
  {
    GeometryBlock(face) + LandmarkBlock(face.landmarks, LandmarkTypes)
      + RatioBlock(face, sqrt) + LikelihoodBlock(face)
  }

  /**
   * `createEnhancedEmbeddingFromFace`: pushes the blocks one value at a time,
   * walking the landmark types in their fixed order.
   */
  method CreateEnhancedEmbeddingFromFace(face: DetectedFace, sqrt: real -> real) returns (embedding: seq<real>)
    requires IsSqrt(sqrt)
    requires RatiosDefined(face)
    ensures embedding == EmbeddingOf(face, sqrt)
  {
    embedding := PushGeometry(face, []);
    embedding := PushLandmarks(face.landmarks, LandmarkTypes, embedding);
    embedding := PushRatios(face, sqrt, embedding);
    embedding := PushLikelihoods(face, embedding);
  }

  /** The bounding-box section: four normalised sizes, then the raw confidence. */
  method PushGeometry(face: DetectedFace, prefix: seq<real>) returns (embedding: seq<real>)
    ensures embedding == prefix + GeometryBlock(face)
  {
    embedding := prefix;
    embedding := embedding + [NormalizeValue(face.bounds.x, 0.0, 2000.0)];
    embedding := embedding + [NormalizeValue(face.bounds.y, 0.0, 2000.0)];
    embedding := embedding + [NormalizeValue(face.bounds.width, 0.0, 1000.0)];
    embedding := embedding + [NormalizeValue(face.bounds.height, 0.0, 1000.0)];
    embedding := embedding + [face.detectionConfidence];
  }

  /** The expression and quality section: four emotions, then blur and under-exposure. */
  method PushLikelihoods(face: DetectedFace, prefix: seq<real>) returns (embedding: seq<real>)
    ensures embedding == prefix + LikelihoodBlock(face)
  {
    embedding := prefix;
    embedding := embedding + [EmotionalLikelihoodToNumber(face.joy)];
    embedding := embedding + [EmotionalLikelihoodToNumber(face.sorrow)];
    embedding := embedding + [EmotionalLikelihoodToNumber(face.anger)];
    embedding := embedding + [EmotionalLikelihoodToNumber(face.surprise)];
    embedding := embedding + [QualityLikelihoodToNumber(face.blurred)];
    embedding := embedding + [QualityLikelihoodToNumber(face.underExposed)];
  }

  /** The `importantLandmarks.forEach` loop: one triple per type, in order. */
  method PushLandmarks(ls: seq<Landmark>, kinds: seq<string>, prefix: seq<real>) returns (embedding: seq<real>)
    ensures embedding == prefix + LandmarkBlock(ls, kinds)
  {
    embedding := prefix;
    for k := 0 to |kinds|
      invariant embedding == prefix + LandmarkBlock(ls, kinds[..k])
    {
      embedding := PushLandmark(ls, kinds[k], embedding);
      LandmarkBlockStep(ls, kinds, k);
    }
    assert kinds[..|kinds|] == kinds;
  }

  /** The `forEach` callback: the first landmark of the type, normalised, or three zeros. */
  method PushLandmark(ls: seq<Landmark>, landmarkType: string, prefix: seq<real>) returns (embedding: seq<real>)
    ensures embedding == prefix + Triple(Find(ls, landmarkType))
  {
    embedding := prefix;
    var landmark := Find(ls, landmarkType);
    if landmark.Some? {
      var x := NormalizeValue(landmark.value.x, 0.0, 2000.0);
      var y := NormalizeValue(landmark.value.y, 0.0, 2000.0);
      var z := NormalizeValue(landmark.value.z, -1000.0, 1000.0);
      embedding := embedding + [x];
      embedding := embedding + [y];
      embedding := embedding + [z];
      assert embedding == prefix + [x, y, z];
    } else {
      embedding := embedding + [0.0, 0.0, 0.0];
    }
  }

  lemma LandmarkBlockStep(ls: seq<Landmark>, kinds: seq<string>, k: nat)
    requires k < |kinds|
    ensures LandmarkBlock(ls, kinds[..k + 1]) == LandmarkBlock(ls, kinds[..k]) + Triple(Find(ls, kinds[k]))
  {
    assert kinds[..k + 1][..k] == kinds[..k];
  }

  /** The face-proportions section: conditional pushes, or eight zeros. */
  method PushRatios(face: DetectedFace, sqrt: real -> real, prefix: seq<real>) returns (embedding: seq<real>)
    requires IsSqrt(sqrt)
    requires RatiosDefined(face)
    ensures embedding == prefix + RatioBlock(face, sqrt)
  {
    embedding := prefix;
    var ls := face.landmarks;
    var width := face.bounds.width;
    var height := face.bounds.height;
    if |ls| >= 3 {
      var leftEye := Find(ls, "LEFT_EYE");
      var rightEye := Find(ls, "RIGHT_EYE");
      var nose := Find(ls, "NOSE_TIP");
      var mouth := Find(ls, "MOUTH_CENTER");
      if leftEye.Some? && rightEye.Some? {
        var eyeDistanceRatio := EyeDistanceRatio(leftEye.value, rightEye.value, width, sqrt);
        embedding := embedding + [NormalizeValue(eyeDistanceRatio, 0.1, 0.8)];
        var eyeLevelDiff := EyeLevelDiff(leftEye.value, rightEye.value, height);
        embedding := embedding + [NormalizeValue(eyeLevelDiff, 0.0, 0.2)];
      }
      assert embedding == prefix + EyeRatios(face, sqrt);
      ghost var afterEyes := embedding;
      if nose.Some? && leftEye.Some? && rightEye.Some? {
        var noseOffsetX := NoseOffsetX(nose.value, leftEye.value, rightEye.value, width);
        var noseOffsetY := NoseOffsetY(nose.value, leftEye.value, rightEye.value, height);
        embedding := embedding + [NormalizeValue(noseOffsetX, 0.0, 0.3)];
        embedding := embedding + [NormalizeValue(noseOffsetY, 0.1, 0.5)];
      }
      assert embedding == afterEyes + NoseRatios(face);
      ghost var afterNose := embedding;
      if mouth.Some? && nose.Some? {
        var mouthNoseRatio := MouthNoseRatio(mouth.value, nose.value, height, sqrt);
        embedding := embedding + [NormalizeValue(mouthNoseRatio, 0.1, 0.4)];
      }
      assert embedding == afterNose + MouthRatio(face, sqrt);
      ghost var afterMouth := embedding;
      var faceAspectRatio := FaceAspectRatio(face.bounds);
      embedding := embedding + [NormalizeValue(faceAspectRatio, 0.5, 1.5)];
      var faceArea := FaceArea(face.bounds);
      embedding := embedding + [NormalizeValue(faceArea, 0.01, 0.5)];
      assert embedding == afterMouth + ShapeRatios(face);
    } else {
      embedding := embedding + [0.0, 0.0, 0.0, 0.0, 0.0, 0.0, 0.0, 0.0];
    }
  }
}
