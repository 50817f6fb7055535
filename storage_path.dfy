/**
 * The storage trigger's path rule: only objects under "student_faces/" are
 * processed, the student id is the second "/"-separated segment of the
 * path, and a single detected face becomes the stored embedding.
 */
module StoragePath {
  import opened Wrappers
  import opened Numeric
  import opened Face
  import opened Embedding

  const StudentFacesPrefix: string := "student_faces/"

  /** `s.split(sep)` for a one-character separator: the pieces between separators, empty ones kept. */
  function Split(s: string, sep: char): (parts: seq<string>)
    ensures |parts| >= 1
    ensures forall k :: 0 <= k < |parts| ==> sep !in parts[k]
  {
    if |s| == 0 then [""]
    else
      var rest := Split(s[1..], sep);
      if s[0] == sep then [""] + rest
      else [[s[0]] + rest[0]] + rest[1..]
  }

  /** `parts.join(sep)`. */
  function Join(parts: seq<string>, sep: char): string
    requires |parts| >= 1
  {
    if |parts| == 1 then parts[0]
    else parts[0] + [sep] + Join(parts[1..], sep)
  }

  /** Joining the pieces gives back the path. */
  lemma {:induction false} JoinSplit(s: string, sep: char)
    ensures Join(Split(s, sep), sep) == s
  {
    if |s| > 0 {
      var rest := Split(s[1..], sep);
      JoinSplit(s[1..], sep);
      if s[0] == sep {
        assert Split(s, sep)[1..] == rest;
      } else {
        var parts := Split(s, sep);
        if |rest| == 1 {
          assert parts == [[s[0]] + rest[0]];
        } else {
          assert parts[1..] == rest[1..];
          assert Join(rest, sep) == rest[0] + [sep] + Join(rest[1..], sep);
        }
        assert s == [s[0]] + s[1..];
      }
    }
  }

  /** Splitting a join of separator-free pieces gives back the pieces. */
  lemma {:induction false} SplitJoin(parts: seq<string>, sep: char)
    requires |parts| >= 1
    requires forall k :: 0 <= k < |parts| ==> sep !in parts[k]
    ensures Split(Join(parts, sep), sep) == parts
  {
    if |parts| == 1 {
      SplitPiece(parts[0], sep);
    } else {
      SplitJoin(parts[1..], sep);
      SplitPieceThen(parts[0], Join(parts[1..], sep), sep);
      assert [parts[0]] + parts[1..] == parts;
    }
  }

  /** A piece with no separator splits into itself. */
  lemma {:induction false} SplitPiece(piece: string, sep: char)
    requires sep !in piece
    ensures Split(piece, sep) == [piece]
  {
    if |piece| > 0 {
      SplitPiece(piece[1..], sep);
      assert [piece[0]] + piece[1..] == piece;
    }
  }

  /** A separator-free piece, a separator and a tail: the piece, then the tail's pieces. */
  lemma {:induction false} SplitPieceThen(piece: string, tail: string, sep: char)
    requires sep !in piece
    ensures Split(piece + [sep] + tail, sep) == [piece] + Split(tail, sep)
  {
    var s := piece + [sep] + tail;
    if |piece| == 0 {
      assert s == [sep] + tail;
      assert s[1..] == tail;
    } else {
      assert s[1..] == piece[1..] + [sep] + tail;
      SplitPieceThen(piece[1..], tail, sep);
      assert [piece[0]] + piece[1..] == piece;
    }
  }

  /** `filePath.split("/")[1]`, with the absent second segment read as the empty string. */
  function StudentIdOf(filePath: string): string {
    var pathParts := Split(filePath, '/');
    if |pathParts| > 1 then pathParts[1] else ""
  }

  /** Under "student_faces/<id>/<name>", the id is the segment between the first two slashes. */
  lemma StudentIdOfLayout(id: string, name: string)
    requires '/' !in id
    ensures StudentIdOf(StudentFacesPrefix + id + "/" + name) == id
  {
    var path := StudentFacesPrefix + id + "/" + name;
    assert '/' !in "student_faces";
    assert path == "student_faces" + ['/'] + (id + ['/'] + name);
    SplitPieceThen("student_faces", id + ['/'] + name, '/');
    SplitPieceThen(id, name, '/');
  }

  /** Under "student_faces/", the id is empty exactly when the rest is empty or begins with a slash. */
  lemma StudentIdOfEmpty(rest: string)
    ensures StudentIdOf(StudentFacesPrefix + rest) == "" <==> (|rest| == 0 || rest[0] == '/')
  {
    var path := StudentFacesPrefix + rest;
    assert '/' !in "student_faces";
    assert path == "student_faces" + ['/'] + rest;
    SplitPieceThen("student_faces", rest, '/');
    if |rest| > 0 {
      assert Split(rest, '/')[0] == "" <==> rest[0] == '/';
    }
  }

  /**
   * What the trigger does with an object: nothing, an error message, or the
   * student record it writes (the fields the search reads or reports).
   */
  datatype ProcessOutcome =
    | Skipped
    | Failed(error: string)
    | Registered(studentId: string, faceEmbedding: seq<real>, embeddingDimensions: nat, confidence: real)

  /** Objects the trigger handles: a name that starts with "student_faces/". */
  predicate IsStudentFacePath(filePath: Option<string>) {
    filePath.Some? && StudentFacesPrefix <= filePath.value
  }

  /**
   * `processStudentFace` from the object name and the faces the detector
   * returned: skip, fail with the first error met, or register the embedding.
   */
  method ProcessStudentFace(filePath: Option<string>, faces: seq<DetectedFace>, sqrt: real -> real)
    returns (outcome: ProcessOutcome)
    requires IsSqrt(sqrt)
    requires |faces| == 1 ==> RatiosDefined(faces[0])
    ensures !IsStudentFacePath(filePath) ==> outcome == Skipped
    ensures IsStudentFacePath(filePath) && |faces| == 0 ==> outcome == Failed("No face detected in the image")
    ensures IsStudentFacePath(filePath) && |faces| > 1 ==>
      outcome == Failed("Multiple faces detected - please use single face image")
    ensures IsStudentFacePath(filePath) && |faces| == 1 && StudentIdOf(filePath.value) == "" ==>
      outcome == Failed("Could not extract studentId from file path")
    ensures IsStudentFacePath(filePath) && |faces| == 1 && StudentIdOf(filePath.value) != "" ==>
      var embedding := EmbeddingOf(faces[0], sqrt);
      outcome == Registered(StudentIdOf(filePath.value), embedding, |embedding|, faces[0].detectionConfidence)
  {
    if filePath.None? || !(StudentFacesPrefix <= filePath.value) {
      return Skipped;
    }
    if |faces| == 0 {
      return Failed("No face detected in the image");
    }
    if |faces| > 1 {
      return Failed("Multiple faces detected - please use single face image");
    }
    var face := faces[0];
    var embedding := CreateEnhancedEmbeddingFromFace(face, sqrt);
    var pathParts := Split(filePath.value, '/');
    var studentId := if |pathParts| > 1 then pathParts[1] else "";
    if studentId == "" {
      return Failed("Could not extract studentId from file path");
    }
    outcome := Registered(studentId, embedding, |embedding|, face.detectionConfidence);
  }
}
