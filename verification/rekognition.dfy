/** Reduction of the AWS Rekognition responses to what the app uses: the
    dominant emotion of the first face, and the list of detected labels.
    The service call itself is a parameter: its response, or the error it
    raised. */
module Rekognition {
  import opened Base

  /** One entry of a face's `Emotions`: its `Type` (which may be missing)
      and its `Confidence`. */
  datatype Emotion = Emotion(kind: Option<string>, confidence: real)

  /** One entry of `FaceDetails`; `Emotions` may be missing. */
  datatype FaceDetail = FaceDetail(emotions: Option<seq<Emotion>>)

  datatype DetectFacesResponse = DetectFacesResponse(faceDetails: Option<seq<FaceDetail>>)

  /** One detected label: its `Name` (which may be missing) and its `Confidence`. */
  datatype Label = Label(name: Option<string>, confidence: real)

  datatype DetectLabelsResponse = DetectLabelsResponse(labels: Option<seq<Label>>)

  /** An error raised by the service client, known by its `name`. */
  datatype ServiceError = ServiceError(name: string)

  const Neutral: string := "NEUTRAL"
  const Default: string := "DEFAULT"

  /** One step of `emotions.reduce`: the previous pick stays only when it is
      strictly more confident than the current entry. */
  function Pick(prev: Emotion, current: Emotion): Emotion {
    if prev.confidence > current.confidence then prev else current
  }

  /** `reduce` from `prev` over `rest`: the result is at least as confident
      as `prev` and as every entry of `rest`, and is one of them. */
  function Dominant(prev: Emotion, rest: seq<Emotion>): (r: Emotion)
    ensures r.confidence >= prev.confidence
    ensures forall j :: 0 <= j < |rest| ==> rest[j].confidence <= r.confidence
    ensures r == prev || r in rest
    decreases |rest|
  {
    if rest == [] then prev else Dominant(Pick(prev, rest[0]), rest[1..])
  }

  /** Ties go to the later entry: the result is either `prev`, strictly
      more confident than all of `rest`, or the LAST entry of `rest` with
      the top confidence. */
  lemma {:induction false} DominantIsLastMaximum(prev: Emotion, rest: seq<Emotion>)
    ensures var r := Dominant(prev, rest);
            || (r == prev && forall j :: 0 <= j < |rest| ==> rest[j].confidence < prev.confidence)
            || exists k :: 0 <= k < |rest| && r == rest[k]
                 && forall j :: k < j < |rest| ==> rest[j].confidence < r.confidence
    decreases |rest|
  {
    if rest != [] {
      var acc := Pick(prev, rest[0]);
      var r := Dominant(prev, rest);
      DominantIsLastMaximum(acc, rest[1..]);
      if r == acc && forall j :: 0 <= j < |rest[1..]| ==> rest[1..][j].confidence < acc.confidence {
        if acc != prev || prev.confidence <= rest[0].confidence {
          assert acc == rest[0];
          assert forall j :: 0 < j < |rest| ==> rest[j].confidence < r.confidence by {
            forall j | 0 < j < |rest| ensures rest[j].confidence < r.confidence {
              assert rest[j] == rest[1..][j - 1];
            }
          }
        } else {
          assert forall j :: 0 <= j < |rest| ==> rest[j].confidence < prev.confidence by {
            forall j | 0 < j < |rest| ensures rest[j].confidence < prev.confidence {
              assert rest[j] == rest[1..][j - 1];
            }
          }
        }
      } else {
        var k :| 0 <= k < |rest[1..]| && r == rest[1..][k]
                 && forall j :: k < j < |rest[1..]| ==> rest[1..][j].confidence < r.confidence;
        assert r == rest[k + 1];
        forall j | k + 1 < j < |rest| ensures rest[j].confidence < r.confidence {
          assert rest[j] == rest[1..][j - 1];
        }
      }
    }
  }

  /** `analyzeImageForEmotion` once the DetectFaces call has answered (or
      thrown): the `Type` of the dominant emotion of the first face, `DEFAULT`
      when that emotion has no (or an empty) `Type`, `NEUTRAL` when there is
      no face or the first face has no emotions; a service error becomes the
      error the function rethrows. */
  function AnalyzeImageForEmotion(response: Result<DetectFacesResponse, ServiceError>): (r: Result<string, string>)
    ensures r.Err? <==> response.Err?
    ensures r.Ok? ==> r.value != ""
  {
    match response
    case Err(e) => Err("Failed to analyze image for emotion: " + e.name)
    case Ok(resp) =>
      if resp.faceDetails.Some? && |resp.faceDetails.value| > 0 then
        var emotions := resp.faceDetails.value[0].emotions;
        if emotions.Some? && |emotions.value| > 0 then
          var dominant := Dominant(emotions.value[0], emotions.value[1..]);
          if dominant.kind.Some? && dominant.kind.value != "" then Ok(dominant.kind.value) else Ok(Default)
        else Ok(Neutral)
      else Ok(Neutral)
  }

  /** Without faces, or when the first face carries no emotions, the answer
      is `NEUTRAL`. */
  lemma NoEmotionsIsNeutral(faces: Option<seq<FaceDetail>>)
    requires faces.None? || faces.value == [] || faces.value[0].emotions.None? || faces.value[0].emotions.value == []
    ensures AnalyzeImageForEmotion(Ok(DetectFacesResponse(faces))) == Ok(Neutral)
  {
  }

  /** Only the first face is examined: the faces after it never change the
      answer. */
  lemma OnlyFirstFaceCounts(first: FaceDetail, others1: seq<FaceDetail>, others2: seq<FaceDetail>)
    ensures AnalyzeImageForEmotion(Ok(DetectFacesResponse(Some([first] + others1))))
         == AnalyzeImageForEmotion(Ok(DetectFacesResponse(Some([first] + others2))))
  {
    assert ([first] + others1)[0] == first == ([first] + others2)[0];
  }

  /** The index of the entry `reduce` picks from a non-empty list. */
  lemma LastMaximumIndex(es: seq<Emotion>) returns (k: nat)
    requires es != []
    ensures k < |es| && Dominant(es[0], es[1..]) == es[k]
    ensures forall j :: 0 <= j < |es| ==> es[j].confidence <= es[k].confidence
    ensures forall j :: k < j < |es| ==> es[j].confidence < es[k].confidence
  {
    var d := Dominant(es[0], es[1..]);
    DominantIsLastMaximum(es[0], es[1..]);
    if d == es[0] && forall j :: 0 <= j < |es[1..]| ==> es[1..][j].confidence < es[0].confidence {
      k := 0;
      forall j | 0 < j < |es| ensures es[j].confidence < es[0].confidence {
        assert es[j] == es[1..][j - 1];
      }
    } else {
      var i :| 0 <= i < |es[1..]| && d == es[1..][i]
               && forall j :: i < j < |es[1..]| ==> es[1..][j].confidence < d.confidence;
      k := i + 1;
      forall j | k < j < |es| ensures es[j].confidence < es[k].confidence {
        assert es[j] == es[1..][j - 1];
      }
      forall j | 0 <= j < |es| ensures es[j].confidence <= es[k].confidence {
        if j > 0 { assert es[j] == es[1..][j - 1]; }
      }
    }
  }

  /** When the first face has emotions, the answer is the `Type` of an
      entry at least as confident as every entry, the last such one, and
      `DEFAULT` when that entry has no `Type`. */
  lemma DominantEmotionChosen(first: FaceDetail, others: seq<FaceDetail>)
    requires first.emotions.Some? && first.emotions.value != []
    ensures var es := first.emotions.value;
            exists k :: 0 <= k < |es|
              && (forall j :: 0 <= j < |es| ==> es[j].confidence <= es[k].confidence)
              && (forall j :: k < j < |es| ==> es[j].confidence < es[k].confidence)
              && AnalyzeImageForEmotion(Ok(DetectFacesResponse(Some([first] + others))))
                 == Ok(if es[k].kind.Some? && es[k].kind.value != "" then es[k].kind.value else Default)
  {
    var es := first.emotions.value;
    assert ([first] + others)[0] == first;
    var k := LastMaximumIndex(es);
    assert AnalyzeImageForEmotion(Ok(DetectFacesResponse(Some([first] + others))))
           == Ok(if es[k].kind.Some? && es[k].kind.value != "" then es[k].kind.value else Default);
  }

  /** `analyzeImageForObjects` once the DetectLabels call has answered (or
      thrown): the labels, `[]` when the response has none; a service error
      becomes the error the function rethrows. */
  function AnalyzeImageForObjects(response: Result<DetectLabelsResponse, ServiceError>): (r: Result<seq<Label>, string>)
    ensures r.Err? <==> response.Err?
    ensures response.Ok? && response.value.labels.None? ==> r == Ok([])
    ensures response.Ok? && response.value.labels.Some? ==> r == Ok(response.value.labels.value)
  {
    match response
    case Err(e) => Err("Failed to analyze image for objects: " + e.name)
    case Ok(resp) => if resp.labels.Some? then Ok(resp.labels.value) else Ok([])
  }
}
