/**
 * The detected-face record the embedding builder consumes, as the vision
 * collaborator hands it over (bounds already derived from the bounding
 * polygon, landmark positions already defaulted to 0), and the two
 * per-landmark helpers of the builder.
 */
module Face {
  import opened Wrappers
  import opened Numeric

  /** Axis-aligned bounding box in image pixels; width and height may be 0 or negative. */
  datatype Bounds = Bounds(x: real, y: real, width: real, height: real)

  /** One facial landmark: its type name and its position. */
  datatype Landmark = Landmark(kind: string, x: real, y: real, z: real)

  /**
   * A detected face. The likelihoods are the vision collaborator's strings
   * ("VERY_UNLIKELY" ... "VERY_LIKELY", or anything else), absent when the
   * collaborator left them undefined.
   */
  datatype DetectedFace = DetectedFace(
    bounds: Bounds,
    detectionConfidence: real,
    landmarks: seq<Landmark>,
    joy: Option<string>,
    sorrow: Option<string>,
    anger: Option<string>,
    surprise: Option<string>,
    underExposed: Option<string>,
    blurred: Option<string>,
    headwear: Option<string>)

  /**
   * `Array.prototype.find` by type: the index of the first landmark of the
   * given type, or |ls| when there is none.
   */
  function FirstIndexOf(ls: seq<Landmark>, kind: string): (i: nat)
    ensures i <= |ls|
    ensures i < |ls| ==> ls[i].kind == kind
    ensures forall j :: 0 <= j < i ==> ls[j].kind != kind
  {
    if |ls| == 0 then 0
    else if ls[0].kind == kind then 0
    else 1 + FirstIndexOf(ls[1..], kind)
  }

  /** `landmarks.find((l) => l.type === kind)`. */
  function Find(ls: seq<Landmark>, kind: string): (r: Option<Landmark>)
    ensures r.None? <==> forall j :: 0 <= j < |ls| ==> ls[j].kind != kind
    ensures r.Some? ==> r.value == ls[FirstIndexOf(ls, kind)]
  {
    var i := FirstIndexOf(ls, kind);
    if i < |ls| then Some(ls[i]) else None
  }

  /** Some detected landmark has the given type: `find` returns a landmark. */
  predicate Has(ls: seq<Landmark>, kind: string) {
    Find(ls, kind).Some?
  }

  /** `calculateDistance`: Euclidean distance in the image plane; z is ignored. */
  function Distance(p: Landmark, q: Landmark, sqrt: real -> real): (r: real)
    requires IsSqrt(sqrt)
    ensures r >= 0.0
    ensures r * r == (q.x - p.x) * (q.x - p.x) + (q.y - p.y) * (q.y - p.y)
  {
    var dx := q.x - p.x;
    var dy := q.y - p.y;
    assert dx * dx >= 0.0 && dy * dy >= 0.0;
    sqrt(dx * dx + dy * dy)
  }

  /** The distance from p to q is the distance from q to p. */
  lemma DistanceSymmetric(p: Landmark, q: Landmark, sqrt: real -> real)
    requires IsSqrt(sqrt)
    ensures Distance(p, q, sqrt) == Distance(q, p, sqrt)
  {
    assert (q.x - p.x) * (q.x - p.x) == (p.x - q.x) * (p.x - q.x);
    assert (q.y - p.y) * (q.y - p.y) == (p.y - q.y) * (p.y - q.y);
  }
}
