/** Signal extraction: turning the detectors' outputs into the three
    per-frame booleans (motion, human, face).  The detectors themselves
    (OpenCV contours, YOLO, face_recognition) are foreign; their outputs
    are the inputs here. */
module Signals {
  import opened Text

  /** A contour of at least this area counts as motion. */
  const MOTION_MIN_AREA: int := 1200
  /** Faces are found on a quarter-size frame; boxes are scaled back by this. */
  const FACE_SCALE: int := 4

  /** The motion signal: never on a frame without a previous frame to compare
      against; otherwise some contour is large enough. */
  predicate MotionSignal(hadPrevious: bool, areas: seq<int>) {
    hadPrevious && exists i :: 0 <= i < |areas| && areas[i] >= MOTION_MIN_AREA
  }

  /** The contour loop of the motion detector: small contours are skipped,
      any other sets the flag. */
  method DetectMotion(areas: seq<int>) returns (found: bool)
    ensures found <==> exists i :: 0 <= i < |areas| && areas[i] >= MOTION_MIN_AREA
  {
    found := false;
    var i := 0;
    while i < |areas|
      invariant 0 <= i <= |areas|
      invariant found <==> exists j :: 0 <= j < i && areas[j] >= MOTION_MIN_AREA
    {
      if areas[i] < MOTION_MIN_AREA {
        i := i + 1;
        continue;
      }
      found := true;
      i := i + 1;
    }
  }

  /** A detector class name that names a person, in any letter case. */
  predicate IsPerson(name: string) {
    Lower(name) == "person"
  }

  /** The person test, character by character: exactly six characters, each
      the lower- or the upper-case letter of `person` at its place. */
  lemma IsPersonExactly(name: string)
    ensures IsPerson(name) <==>
      |name| == 6 && forall i :: 0 <= i < 6 ==> name[i] == "person"[i] || name[i] == "PERSON"[i]
  {
    if |name| == 6 {
      var low := Lower(name);
      forall i | 0 <= i < 6
        ensures low[i] == "person"[i] <==> name[i] == "person"[i] || name[i] == "PERSON"[i]
      {
      }
      if low == "person" {
        assert forall i :: 0 <= i < 6 ==> low[i] == "person"[i];
      } else {
        var k :| 0 <= k < 6 && low[k] != "person"[k];
      }
    }
  }

  /** The human signal: some box of some result is labelled "person". */
  predicate HumanSignal(results: seq<seq<string>>) {
    exists r, b :: 0 <= r < |results| && 0 <= b < |results[r]| && IsPerson(results[r][b])
  }

  /** The YOLO loop: every result, every box, set the flag on a person.
      A result is given as the class names of its boxes. */
  method DetectPersons(results: seq<seq<string>>) returns (found: bool)
    ensures found <==> HumanSignal(results)
  {
    found := false;
    var r := 0;
    while r < |results|
      invariant 0 <= r <= |results|
      invariant found <==> exists r', b :: 0 <= r' < r && 0 <= b < |results[r']| && IsPerson(results[r'][b])
    {
      var b := 0;
      while b < |results[r]|
        invariant 0 <= b <= |results[r]|
        invariant found <==> (exists r', b' :: 0 <= r' < r && 0 <= b' < |results[r']| && IsPerson(results[r'][b'])) ||
                             (exists b' :: 0 <= b' < b && IsPerson(results[r][b']))
      {
        if IsPerson(results[r][b]) {
          found := true;
        }
        b := b + 1;
      }
      r := r + 1;
    }
  }

  /** A face box as face_recognition reports it: top, right, bottom, left. */
  datatype Box = Box(top: int, right: int, bottom: int, left: int)

  function ScaleBox(b: Box): Box {
    Box(b.top * FACE_SCALE, b.right * FACE_SCALE, b.bottom * FACE_SCALE, b.left * FACE_SCALE)
  }

  /** The face loop: every box found on the quarter-size frame, scaled to full size, in order. */
  method ScaleFaces(faces: seq<Box>) returns (scaled: seq<Box>)
    ensures |scaled| == |faces|
    ensures forall i :: 0 <= i < |faces| ==> scaled[i] == ScaleBox(faces[i])
  {
    scaled := [];
    for i := 0 to |faces|
      invariant |scaled| == i
      invariant forall j :: 0 <= j < i ==> scaled[j] == ScaleBox(faces[j])
    {
      scaled := scaled + [ScaleBox(faces[i])];
    }
  }
}
