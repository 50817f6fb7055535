# Face-recognition pipeline of the student attendance back end

This project models the face-recognition core of the student attendance
system's cloud functions (`functions/index.js`). The core has four parts:

- **Embedding builder** (`createEnhancedEmbeddingFromFace`). It turns one
  detected face into an ordered list of numbers, made of four blocks:
  - 5 geometry values;
  - 27 landmark types × 3 coordinates;
  - a block of geometric ratios;
  - 6 likelihood values.
- **Similarity scorer** (`calculateEnhancedSimilarity`). It computes the
  cosine similarity of two embeddings, a match threshold that depends on the
  length, a five-level confidence tier, and the score as a percentage string.
- **Candidate search** (the body of `findStudentByFace`). It scores the query
  embedding against every registered student's stored embedding, keeps those
  at or above the caller's threshold, ranks them by descending similarity, and
  reports the first one as the best match.
- **Storage-trigger path rule** (`processStudentFace`). Only objects under
  `student_faces/` are handled; a single detected face becomes the stored
  embedding; the student id is the second `/`-separated segment of the path.

## How the model is built

Each part keeps the form it has in the source.

- The builder is a method that appends to the embedding one value at a time:
  - a `for` loop over the landmark types, whose body is the `forEach`
    callback;
  - then the conditional ratio pushes.

  It is proved equal to the block-by-block function `EmbeddingOf`. Every
  statement about the embedding's length, layout and value range is a lemma
  about that function.
- The scorer runs its accumulation loop in `SumProducts`. It is proved equal
  to the pure `Score`, and `ScoreFacts` states what `Score` promises.
- The search loop appends to a sequence, and that sequence is then sorted in
  place as an array by an insertion sort. The search is proved to return a
  descending permutation of `Candidates`, a filter of the records in the order
  they were read.
- Numbers are exact reals. `Math.sqrt` is a parameter `sqrt` that must be a
  square root on the non-negative reals (`Numeric.IsSqrt`); the model never
  constructs one.
- `toFixed(1)` is modelled exactly on reals:
  - round half up on the absolute value;
  - a `-` sign for negative values;
  - one digit after the point.

### Two properties of the code

- **Embedding length.** The embedding does not have a fixed length:
  - with fewer than three landmarks, the ratio block is eight zeros (100
    values in all);
  - otherwise it holds 2 to 7 values (94 to 99 in all).

  `EmbeddingLayout.EmbeddingLength` states the exact length. As a consequence,
  a face with fewer than three landmarks and a face with eyes, nose tip and
  mouth centre are never compared (`Pipeline.SparseAndFullFacesNeverCompared`).
- **Confidence value.** The detection confidence is copied into the embedding
  unclamped. Every value except index 4 lies in [0, 1]
  (`EmbeddingLayout.EmbeddingRange`).

## Model

| member | source | states |
|---|---|---|
| Numeric.NormalizeValue | functions/index.js:531-533 | When max > min, the result is always in [0,1]. An in-range value maps to (value-min)/(max-min); a value at or below min gives 0; a value at or above max gives 1. |
| Numeric.NormalizeMonotone | functions/index.js:531-533 | Clamp-normalisation preserves the order of two raw values. |
| Face.FirstIndexOf | functions/index.js:410 | The index where the type search stops: at most the length; a landmark of the type when below it; no landmark of the type before it. |
| Face.Find | functions/index.js:410 | Returns None exactly when no landmark has the type; otherwise the first landmark with that type. |
| Face.Distance | functions/index.js:535-540 | The distance is non-negative. Its square is dx² + dy²; z is ignored. |
| Face.DistanceSymmetric | functions/index.js:535-540 | The distance from p to q equals the distance from q to p. |
| Likelihood.LookupOr | functions/index.js:550 | The lookup with its fallback: the table entry for the name, or the fallback when the name is absent, not a key, or maps to the falsy 0. |
| Likelihood.EmotionalLikelihoodToNumber | functions/index.js:542-551 | The value is in [0, 0.9]. Anything that is not one of the five level names, or is absent, gives 0.0. |
| Likelihood.QualityLikelihoodToNumber | functions/index.js:553-562 | The value is in [0.1, 1.0]. Anything that is not one of the five level names, or is absent, gives 0.5. |
| Likelihood.EmotionIncreasing | functions/index.js:542-551 | An emotion value strictly increases with the likelihood level. |
| Likelihood.QualityDecreasing | functions/index.js:553-562 | A quality value strictly decreases as the likelihood of the defect rises. |
| Likelihood.TableEnds | functions/index.js:542-562 | VERY_UNLIKELY and VERY_LIKELY map to 0.0 and 0.9 (emotion), and to 1.0 and 0.1 (quality). |
| Embedding.Triple | functions/index.js:411-416 | The values one type contributes: x and y clamp-normalised over 0..2000 and z over -1000..1000 for a found landmark, otherwise 0, 0, 0. |
| Embedding.LandmarkBlock | functions/index.js:409-418 | Block 2 for a list of types: the triple of each type, in the list's order. |
| Embedding.GeometryBlock | functions/index.js:390-395 | Block 1: x and y clamp-normalised over 0..2000, width and height over 0..1000, then the raw detection confidence. |
| Embedding.EyeDistanceRatio | functions/index.js:429-430 | The distance between the eye centres divided by the face width. |
| Embedding.EyeLevelDiff | functions/index.js:434 | The vertical gap between the eye centres divided by the face height. |
| Embedding.NoseOffsetX | functions/index.js:440-443 | The horizontal distance from the nose tip to the midpoint of the eyes, divided by the width. |
| Embedding.NoseOffsetY | functions/index.js:441-444 | The signed vertical offset of the nose tip below the midpoint of the eyes, divided by the height. |
| Embedding.MouthNoseRatio | functions/index.js:452-453 | The mouth-to-nose distance divided by the height. |
| Embedding.FaceAspectRatio | functions/index.js:458 | Width over height. |
| Embedding.FaceArea | functions/index.js:462 | Width times height over one million. |
| Embedding.EyeRatios | functions/index.js:427-436 | The two eye values, normalised over 0.1..0.8 and 0..0.2, when both eye centres were found; nothing otherwise. |
| Embedding.NoseRatios | functions/index.js:438-448 | The two nose offsets, normalised over 0..0.3 and 0.1..0.5, when the nose tip and both eyes were found; nothing otherwise. |
| Embedding.MouthRatio | functions/index.js:450-455 | The mouth-nose ratio, normalised over 0.1..0.4, when the mouth centre and the nose tip were found; nothing otherwise. |
| Embedding.ShapeRatios | functions/index.js:457-463 | The aspect ratio normalised over 0.5..1.5, then the area normalised over 0.01..0.5. |
| Embedding.RatioBlock | functions/index.js:421-467 | Block 3: with at least three landmarks, the eye, nose, mouth and shape values in that order; otherwise eight zeros. |
| Embedding.LikelihoodBlock | functions/index.js:469-475 | Block 4: joy, sorrow, anger and surprise as emotion values, then blur and under-exposure as quality values. |
| Embedding.EmbeddingOf | functions/index.js:387-479 | The whole embedding: the geometry, landmark, ratio and likelihood blocks, concatenated in that order. |
| Embedding.CreateEnhancedEmbeddingFromFace | functions/index.js:387-479 | The pushed list equals EmbeddingOf(face): geometry, the landmark block in the fixed type order, the ratio block, then joy, sorrow, anger, surprise, blurred, underExposed. |
| Embedding.PushGeometry | functions/index.js:390-395 | Appends exactly the geometry block. |
| Embedding.PushLandmarks | functions/index.js:409-418 | After the loop over the types, the list grows by exactly one triple per type, in the given order. |
| Embedding.PushLandmark | functions/index.js:410-417 | The callback appends the normalised x, y, z of the first landmark of the type, or 0,0,0 when there is none. |
| Embedding.PushRatios | functions/index.js:421-467 | The list grows by the ratio block: each sub-block is appended exactly when its landmarks are present, and eight zeros are appended when there are fewer than three landmarks. |
| Embedding.PushLikelihoods | functions/index.js:469-475 | Appends exactly the likelihood block. |
| EmbeddingLayout.LandmarkTypesCount | functions/index.js:398-407 | There are 27 landmark types. |
| EmbeddingLayout.LandmarkBlockLength | functions/index.js:409-418 | The landmark block has 3 values per type. |
| EmbeddingLayout.LandmarkBlockAt | functions/index.js:409-418 | Values 3k..3k+2 of the landmark block are the triple of type k. |
| EmbeddingLayout.LandmarkBlockInUnitRange | functions/index.js:409-418 | Every landmark-block value is in [0,1]. |
| EmbeddingLayout.EyeRatiosFacts | functions/index.js:427-436 | The eye ratios are 2 values when both eyes are present and none otherwise; each is in [0,1]. |
| EmbeddingLayout.NoseRatiosFacts | functions/index.js:438-448 | The nose offsets are 2 values when the nose tip and both eyes are present and none otherwise; each is in [0,1]. |
| EmbeddingLayout.MouthRatioFacts | functions/index.js:450-455 | The mouth ratio is 1 value when the mouth centre and the nose tip are present and none otherwise; it is in [0,1]. |
| EmbeddingLayout.RatioBlockFacts | functions/index.js:421-467 | The ratio block's length is RatioCount: 8 below three landmarks, otherwise 2 + 2 (eyes) + 2 (eyes and nose) + 1 (mouth and nose). It is eight zeros below three landmarks, and every value is in [0,1]. |
| EmbeddingLayout.EmbeddingLength | functions/index.js:387-479 | The length is 92 + RatioCount, always between 94 and 100. It is 100 exactly when there are fewer than three landmarks. |
| EmbeddingLayout.EmbeddingBlocks | functions/index.js:387-479 | The geometry occupies values 0..4; the ratio block runs from index 86 to six before the end; the last six values are the likelihoods. |
| EmbeddingLayout.SlotIsTriple | functions/index.js:409-418 | Values 5+3k..7+3k of the embedding are the triple of landmark type k. |
| EmbeddingLayout.LandmarkSlot | functions/index.js:409-418 | For a present type, the slot holds the normalised x, y (0..2000) and z (-1000..1000) of the first matching landmark; for an absent type it holds 0,0,0. |
| EmbeddingLayout.EmbeddingRange | functions/index.js:387-479 | Index 4 is the raw detection confidence; every other value is in [0,1]. |
| EmbeddingLayout.EyesOnlyFace | functions/index.js:409-467 | A face with only the two eye centres, listed in either order, gives 100 values: the left-eye and right-eye triples, zeros for the other 25 types, and the eight-zero ratio block. |
| EmbeddingLayout.FullFaceLength | functions/index.js:421-467 | With at least three landmarks, including both eyes, the nose tip and the mouth centre, the embedding has 99 values. |
| Format.Tenths | functions/index.js:521 | Rounds 10·x to the nearest whole number, a tie going up. |
| Format.ToFixed1 | functions/index.js:521 | The string has at least 3 characters, one digit after the point, and a leading '-' exactly for negative values. |
| Format.ToFixed1Denotes | functions/index.js:521 | Reading the string's digits back gives the rounded tenths of the absolute value. |
| Format.ToFixed1Zero | functions/index.js:487 | Formatting 0 gives "0.0", the percentage of the no-match result. |
| Format.ToFixed1Hundred | functions/index.js:521 | Formatting 100 gives "100.0". |
| Similarity.Comparable | functions/index.js:483 | Both vectors are present and have the same length, the negation of the early-return guard. |
| Similarity.Dot | functions/index.js:497-501 | The sum of the products of corresponding elements, accumulated front to back. |
| Similarity.Cosine | functions/index.js:497-504 | The dot product over the product of the square roots of the squared norms; 0 when that product is not positive. |
| Similarity.Threshold | functions/index.js:507 | 0.75 for vectors longer than 30, otherwise 0.6. |
| Similarity.Score | functions/index.js:482-525 | The result record: the fixed no-match record NoMatch (similarity 0, no match, "0.0", threshold 0.75, very_low) when a vector is missing or the lengths differ; otherwise the cosine, whether it reaches the threshold, its percentage string, the threshold and the tier. |
| Similarity.Tier | functions/index.js:511-516 | ≥0.85 is very_high; [0.75,0.85) high; [0.65,0.75) medium; [0.5,0.65) low; below 0.5 very_low. Each boundary belongs to the higher tier, in both directions. |
| Similarity.TierMonotone | functions/index.js:511-516 | A higher score never gets a lower tier. |
| Similarity.ScoreFacts | functions/index.js:482-525 | A missing vector or unequal lengths give exactly the fixed no-match result. Otherwise: the cosine similarity, within [-1,1]; threshold 0.75 above 30 dimensions, else 0.6; isMatch exactly when similarity ≥ threshold; the tier of the score; and the percentage toFixed(1) of similarity·100. |
| Similarity.CalculateEnhancedSimilarity | functions/index.js:482-525 | The method's result equals Score(vecA, vecB). |
| Similarity.CosineSimilarity | functions/index.js:497-504 | The loop and the guarded division compute Cosine(a, b), which lies in [-1,1]. |
| Similarity.SumProducts | functions/index.js:497-501 | The loop yields the dot product and both squared norms; the norms are non-negative. |
| Similarity.DotSymmetric | functions/index.js:497-501 | The dot product is symmetric. |
| Similarity.CosineSymmetric | functions/index.js:503-504 | Swapping the vectors does not change the similarity. |
| Similarity.ScoreSymmetric | functions/index.js:482-525 | Swapping the arguments gives the same result record. |
| Similarity.ZeroMagnitude | functions/index.js:503-504 | A zero-magnitude vector gives similarity 0, in either argument position. |
| Similarity.SelfSimilarity | functions/index.js:503-504 | A vector that is not all zeros has similarity 1 with itself. |
| Similarity.SelfComparison | functions/index.js:507-516 | Self-comparison reaches either threshold and is in the very_high tier. |
| Similarity.CauchySchwarz | functions/index.js:497-504 | (a·b)² ≤ (a·a)(b·b). |
| Similarity.CosineBounded | functions/index.js:503-504 | The similarity lies in [-1,1]. |
| Similarity.NonNegativeVectorsSimilarity | functions/index.js:497-504 | Vectors with no negative values have similarity in [0,1]. |
| Search.ThresholdOf | functions/index.js:217 | The caller's threshold, or 0.75 when none was given. |
| Search.IsCandidate | functions/index.js:242-245 | The record holds an embedding of the query's length whose cosine with the query reaches the threshold. |
| Search.MatchOf | functions/index.js:246-252 | The entry for a record: its student id and image URL, with the scorer's similarity, percentage and tier. |
| Search.Candidates | functions/index.js:238-255 | The kept entries number at most the records. Each reaches the threshold and has similarity in [-1,1]. |
| Search.CandidateMembership | functions/index.js:238-255 | An entry is kept exactly when some record has an embedding of the query's length scoring at or above the threshold, and the entry is built from that record. |
| Search.CandidateSound | functions/index.js:242-252 | Every kept entry comes from a record that passes. |
| Search.CandidateComplete | functions/index.js:242-252 | Every record that passes contributes its entry. |
| Search.ScoreStudents | functions/index.js:238-255 | The loop collects exactly Candidates, in the order the records were read. |
| Search.ScoreStudent | functions/index.js:239-254 | One record contributes its entry when it passes, and nothing otherwise. |
| Search.SortBySimilarityDescending | functions/index.js:258 | The array ends sorted by non-increasing similarity and is a permutation of its old contents. |
| Search.FindStudentByFace | functions/index.js:217-265 | A missing embedding fails with "Face embedding is required"; no records gives the no-students outcome. Otherwise: a descending permutation of the candidates; totalMatches is their count; bestMatch is the first entry, None exactly when nothing passed, and a candidate of highest similarity; thresholdUsed is the caller's threshold or 0.75. |
| Search.HeadOfRanking | functions/index.js:258-264 | The head of a descending ranking of the candidates is a candidate of highest similarity. The ranking is empty exactly when there are no candidates. |
| Search.DifferentLengthNeverCandidate | functions/index.js:242 | A stored embedding of another length never yields an entry. |
| Search.RegisteredFaceFindsItself | functions/index.js:238-255 | A record storing exactly the (non-zero) query is found with similarity 1.0, "100.0" and very_high, for any threshold up to 1. |
| StoragePath.IsStudentFacePath | functions/index.js:40 | The object name is present and starts with "student_faces/". |
| StoragePath.StudentIdOf | functions/index.js:62-63 | The second "/"-separated piece of the path, or the empty string when there is none. |
| StoragePath.Split | functions/index.js:62 | There is always at least one piece, and no piece contains the separator. |
| StoragePath.JoinSplit | functions/index.js:62 | Joining the pieces of a split gives back the path. |
| StoragePath.SplitJoin | functions/index.js:62 | Splitting a join of separator-free pieces gives back the pieces. |
| StoragePath.StudentIdOfLayout | functions/index.js:62-63 | For "student_faces/id/name", with no '/' in id, the student id is id. |
| StoragePath.StudentIdOfEmpty | functions/index.js:62-66 | Under "student_faces/", the id is empty exactly when the rest is empty or starts with '/'. |
| StoragePath.ProcessStudentFace | functions/index.js:37-88 | Outside "student_faces/" the object is skipped. Zero faces and several faces fail with their messages, in that order, and an empty id fails. Otherwise the student is registered with EmbeddingOf(face), its length and the detection confidence. |
| Pipeline.EmbeddingNotZero | functions/index.js:474-475 | A built embedding is never all zeros, because its last value (a quality value) is at least 0.1. |
| Pipeline.EmbeddingSimilarityNonNegative | functions/index.js:497-504 | Two built embeddings of equal length with non-negative confidences score in [0,1]. |
| Pipeline.SparseAndFullFacesNeverCompared | functions/index.js:242 | A face with fewer than three landmarks and a fully landmarked face have different lengths. They are never comparable, and the search drops such a record. |
| Pipeline.RegisteredFaceIsFound | functions/index.js:238-255 | Searching with the embedding a student was registered with finds that student with similarity 1.0 in the very_high tier, for any threshold up to 1. |

## Left out

- Firebase plumbing is not part of this model. This covers the `onObjectFinalized`/`onCall`/`onRequest` wrappers, Firestore reads and writes (including the `status == "registered"` query, whose result is the `docs` input), the `processingErrors` log written on failure, and the `getStats`, `helloWorld` and `compareFaces` entry points.
- `detectFaces` (a Google Vision call) and the axios download in `extractFaceEmbedding` are foreign, asynchronous I/O. The detected faces are inputs; landmark positions and the confidence arrive already defaulted, as `detectFaces` hands them over.
- `Math.sqrt` is the parameter `sqrt` with the square-root property; no particular root function is built.
- IEEE-754 behaviour is not modelled, as it is not real arithmetic:
  - rounding of floating-point sums and quotients;
  - NaN and Infinity from a zero divisor in the ratio section, which `Embedding.RatiosDefined` excludes. It asks for a non-zero height whenever the section runs (the aspect ratio at line 458 divides by it), and a non-zero width only when both eye centres were found (the width divides only at lines 430 and 443). Negative sizes give finite values and are allowed;
  - NaN flowing through comparisons and through `|| 0`.
- Embedding.CreateEnhancedEmbeddingFromFace: `face.detectionConfidence || 0` is modelled as the raw confidence. The `|| 0` only changes undefined, NaN or 0, none of which a real-valued input can be except 0, which it maps to itself.
- Likelihood.EmotionalLikelihoodToNumber, Likelihood.QualityLikelihoodToNumber, Likelihood.LookupOr: `mapping[likelihood]` on a plain object also finds inherited keys such as "constructor". Those keys are not modelled; any non-level string gives the fallback (0.0 for emotions, 0.5 for quality).
- Similarity.SelfSimilarity, Similarity.SelfComparison, Search.RegisteredFaceFindsItself, Pipeline.RegisteredFaceIsFound: the self-similarity of exactly 1.0 holds in real arithmetic only. In doubles `Math.sqrt(2) * Math.sqrt(2)` is 2.0000000000000004, so the source scores [1, 1] against itself as 0.9999999999999998. With a caller threshold of exactly 1, the search then drops the registered student. The model does not show this rounding.
- Search.SortBySimilarityDescending: the result is proved sorted and a permutation. Stability, which `Array.prototype.sort` guarantees and the insertion sort also has, is not stated.
- Search.FindStudentByFace: a `threshold` explicitly passed as `null` (compared as 0 in JavaScript) is not modelled; the threshold is either a number or absent.
- Format.ToFixed1: only magnitudes below 10^21 are modelled, which covers every similarity times 100. JavaScript's exponent notation above that is not modelled.
- The `headwear` likelihood is carried in the face record but unused by the builder, as in the source. Console logging is not modelled.
