/** What the two screens and the two service wrappers guarantee together:
    the route parameters the capture screen writes are read back by the
    results screen as intended. */
module Pipeline {
  import opened Base
  import opened Text
  import opened Rekognition
  import Gemini
  import opened Capture
  import opened Results

  /** Names that survive the trip: no comma inside and not blank. */
  predicate CleanNames(names: seq<string>) {
    forall i :: 0 <= i < |names| ==> ',' !in names[i] && !IsBlank(names[i])
  }

  /** Join, then split and filter: the results screen recovers exactly the
      label names, in order, when no name holds a comma or is blank. */
  lemma {:induction false} ObjectsParamRoundTrip(emotionResult: string, labels: seq<Label>)
    requires CleanNames(ObjectNames(labels))
    ensures ParseObjects(Some(EncodeParams(emotionResult, labels).objects)) == ObjectNames(labels)
  {
    var names := ObjectNames(labels);
    if names != [] {
      var joined := Join(names, [',']);
      assert Join(names, ",") == joined;
      SplitJoin(names, ',');
      KeepNonBlankKeepsAll(names);
    }
  }

  /** A name holding a comma does not survive: the results screen never
      gets it back as that one object. */
  lemma CommaSplitsName(name: string, k: nat)
    requires k < |name| && name[k] == ','
    ensures ParseObjects(Some(Join([name], ","))) != [name]
  {
    assert Join([name], ",") == name;
    assert name[k] in name;
  }

  /** The fallback emotion of the capture screen is never a specific
      emotion on the results screen. */
  lemma DefaultEmotionIsNonSpecific(labels: seq<Label>)
    ensures EncodeParams("", labels).emotion == Default
    ensures !IsSpecificEmotion(Some(EncodeParams("", labels).emotion))
  {
    assert ToUpper(Default) == Default;
  }

  /** Nor is the `NEUTRAL` of an image without faces. */
  lemma NeutralIsNonSpecific()
    ensures !IsSpecificEmotion(Some(Neutral))
  {
    assert ToUpper(Neutral) == Neutral;
  }

  /** The emotion analysis never answers with an empty string, so the
      capture screen's `DEFAULT` fallback never replaces its answer. */
  lemma AnalyzedEmotionIsPassedOn(response: Result<DetectFacesResponse, ServiceError>, labels: seq<Label>)
    requires AnalyzeImageForEmotion(response).Ok?
    ensures EncodeParams(AnalyzeImageForEmotion(response).value, labels).emotion == AnalyzeImageForEmotion(response).value
  {
  }

  /** With no face in the picture and some clean label names, the results
      screen leads with the objects and asks for their refinement. */
  lemma NoFaceLeadsWithObjects(faces: Option<seq<FaceDetail>>, labels: seq<Label>)
    requires faces.None? || faces.value == []
    requires ObjectNames(labels) != [] && CleanNames(ObjectNames(labels))
    ensures var params := EncodeParams(AnalyzeImageForEmotion(Ok(DetectFacesResponse(faces))).value, labels);
            Decide(Some(params.emotion), Some(params.objects))
            == Decision(Some(Neutral), ObjectNames(labels), ObjectLed, true, Refine(ObjectNames(labels)))
  {
    NoEmotionsIsNeutral(faces);
    NeutralIsNonSpecific();
    ObjectsParamRoundTrip(Neutral, labels);
  }

  /** The refinement's answer is shown and spoken exactly when the model
      gave a reply that trims to a label shorter than 50 characters other than
      "Objects"; such a label is never empty. */
  lemma RefinementUsedOnlyWhenValid(objectList: seq<string>, reply: Result<string, string>)
    requires objectList != []
    ensures var refined := Gemini.GetRefinedObjectLabel(Some(objectList), reply).refined;
            UsableRefinement(Ok(refined)) <==>
              && reply.Ok?
              && 0 < Utf16Length(Trim(reply.value)) < Gemini.ReplyLimit
              && Trim(reply.value) != Gemini.Sentinel
  {
    if reply.Ok? && 0 < Utf16Length(Trim(reply.value)) < Gemini.ReplyLimit {
      assert Trim(reply.value) != "";
    }
  }
}
