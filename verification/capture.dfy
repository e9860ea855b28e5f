/** The capture screen: the camera-facing toggle, the guard that keeps a
    second capture from starting while one is under way, and the encoding
    of the analysis into the route parameters of the results screen.
    Camera, file system and the two Rekognition calls are parameters of
    `TakePictureAndAnalyze`: what each one produced, or that it failed. */
module Capture {
  import opened Base
  import opened Text
  import opened Rekognition

  datatype Facing = Front | Back

  /** The other camera: toggling always changes the facing, so toggling
      twice restores it. */
  function Toggled(f: Facing): (r: Facing)
    ensures r != f
  {
    if f == Back then Front else Back
  }

  /** The `emotion` and `objects` parameters passed to the results screen. */
  datatype RouteParams = RouteParams(emotion: string, objects: string)

  /** `labels.map(l => l.Name).filter(n => n !== undefined)`. */
  function ObjectNames(labels: seq<Label>): (names: seq<string>)
    ensures |names| <= |labels|
  {
    if labels == [] then []
    else (if labels[0].name.Some? then [labels[0].name.value] else []) + ObjectNames(labels[1..])
  }

  /** The names come label by label: those of `a` then those of `b`. */
  lemma {:induction false} ObjectNamesAppend(a: seq<Label>, b: seq<Label>)
    ensures ObjectNames(a + b) == ObjectNames(a) + ObjectNames(b)
  {
    if a != [] {
      assert (a + b)[1..] == a[1..] + b;
      ObjectNamesAppend(a[1..], b);
    } else {
      assert a + b == b;
    }
  }

  /** Every name comes from a label that had one, and every label that had
      a name contributes it. */
  lemma {:induction false} ObjectNamesAreTheNames(labels: seq<Label>)
    ensures forall n :: n in ObjectNames(labels) <==> exists j :: 0 <= j < |labels| && labels[j].name == Some(n)
  {
    if labels != [] {
      ObjectNamesAreTheNames(labels[1..]);
      forall n ensures n in ObjectNames(labels) <==> exists j :: 0 <= j < |labels| && labels[j].name == Some(n) {
        if n in ObjectNames(labels[1..]) {
          var j :| 0 <= j < |labels[1..]| && labels[1..][j].name == Some(n);
          assert labels[j + 1].name == Some(n);
        }
        if exists j :: 0 <= j < |labels| && labels[j].name == Some(n) {
          var j :| 0 <= j < |labels| && labels[j].name == Some(n);
          if j > 0 { assert labels[1..][j - 1].name == Some(n); }
        }
      }
    }
  }

  /** The route parameters of a successful analysis: the emotion, or
      `DEFAULT` for an empty one; the label names joined with ",". */
  function EncodeParams(emotionResult: string, labels: seq<Label>): (p: RouteParams)
    ensures p.emotion != ""
    ensures emotionResult != "" ==> p.emotion == emotionResult
    ensures p.objects == Join(ObjectNames(labels), ",")
  {
    RouteParams(if emotionResult != "" then emotionResult else Default, Join(ObjectNames(labels), ","))
  }

  /** How one press of the capture button ends: rejected by the guard,
      failed with the "could not take or analyze" alert, or navigated to
      the results screen with these parameters. */
  datatype CaptureOutcome = Aborted | Failed | Navigated(params: RouteParams)

  class CaptureScreen {
    var isAnalyzing: bool
    var isCameraReady: bool
    var facing: Facing
    /** Every `setIsAnalyzing` call, in order. */
    ghost var analyzingWrites: seq<bool>

    constructor()
      ensures !isAnalyzing && !isCameraReady && facing == Front && analyzingWrites == []
    {
      isAnalyzing := false;
      isCameraReady := false;
      facing := Front;
      analyzingWrites := [];
    }

    /** `toggleCameraFacing`. */
    method ToggleCameraFacing()
      modifies this
      ensures facing == Toggled(old(facing))
      ensures isAnalyzing == old(isAnalyzing) && isCameraReady == old(isCameraReady)
      ensures analyzingWrites == old(analyzingWrites)
    {
      facing := if facing == Back then Front else Back;
    }

    /** The camera view's `onCameraReady` callback. */
    method OnCameraReady()
      modifies this
      ensures isCameraReady
      ensures isAnalyzing == old(isAnalyzing) && facing == old(facing)
      ensures analyzingWrites == old(analyzingWrites)
    {
      isCameraReady := true;
    }

    /** Whether the capture button is disabled (and dimmed). */
    function CaptureDisabled(): (disabled: bool)
      reads this
      ensures isAnalyzing ==> disabled
      ensures !isCameraReady ==> disabled
      ensures !disabled ==> isCameraReady && !isAnalyzing
      ensures isCameraReady && !isAnalyzing ==> !disabled
    {
      !isCameraReady || isAnalyzing
    }

    /** `takePictureAndAnalyze`, with the outcome of each step it awaits
        given: whether the camera ref is set, the picture's URI, the file's
        base64 contents, and the two analyses (which run together and must
        both succeed). The button is disabled exactly when the guard would
        reject the press; `isAnalyzing` is raised only once a picture with a
        URI exists; every failure lowers it again and navigates nowhere. */
    method TakePictureAndAnalyze(cameraAttached: bool, pictureUri: Option<string>, base64: Option<string>,
                                 emotion: Result<string, string>, objects: Result<seq<Label>, string>)
      returns (outcome: CaptureOutcome)
      modifies this
      ensures facing == old(facing) && isCameraReady == old(isCameraReady)
      ensures outcome.Aborted? <==> old(CaptureDisabled()) || !cameraAttached
      ensures outcome.Aborted? ==> isAnalyzing == old(isAnalyzing) && analyzingWrites == old(analyzingWrites)
      ensures !outcome.Aborted? && !Truthy(pictureUri) ==> outcome.Failed? && analyzingWrites == old(analyzingWrites) + [false]
      ensures !outcome.Aborted? && Truthy(pictureUri) ==>
                analyzingWrites == old(analyzingWrites) + [true] + (if outcome.Navigated? then [] else [false])
      ensures outcome.Failed? ==> !isAnalyzing
      ensures outcome.Navigated? <==>
                !old(CaptureDisabled()) && cameraAttached && Truthy(pictureUri) && Truthy(base64) && emotion.Ok? && objects.Ok?
      ensures outcome.Navigated? ==> isAnalyzing && outcome.params == EncodeParams(emotion.value, objects.value)
    {
      if !isCameraReady || isAnalyzing || !cameraAttached {
        return Aborted;
      }
      if !Truthy(pictureUri) {
        isAnalyzing := false;
        analyzingWrites := analyzingWrites + [false];
        return Failed;
      }
      isAnalyzing := true;
      analyzingWrites := analyzingWrites + [true];
      if !Truthy(base64) || emotion.Err? || objects.Err? {
        isAnalyzing := false;
        analyzingWrites := analyzingWrites + [false];
        return Failed;
      }
      outcome := Navigated(EncodeParams(emotion.value, objects.value));
    }
  }
}
