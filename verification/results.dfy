/** The results screen: it reads the `emotion` and `objects` route
    parameters, decides which detection leads, composes the sentence to
    speak, and keeps at most one loaded sound. Remote calls (label
    refinement, speech synthesis, sound creation) and `Math.random` are
    parameters: what each produced, or that it failed. */
module Results {
  import opened Base
  import opened Text
  import Gemini
  import opened Tts

  /** Emotion tags that mean no specific emotion was detected. */
  const NonSpecificEmotionStates: seq<string> := ["NEUTRAL", "DEFAULT"]

  /** The hedge words of a refined guess. */
  const Choices: seq<string> := ["think", "believe", "suspect"]

  /** `Math.floor(u * n)` for `u` in [0, 1): an index below `n`. */
  function DrawIndex(n: nat, u: real): (i: nat)
    requires n > 0 && 0.0 <= u < 1.0
    ensures i < n
    ensures i as real <= u * n as real < i as real + 1.0
  {
    ScaleBelow(u, n);
    (u * n as real).Floor
  }

  /** Scaling by a fraction in [0, 1) keeps `n` at most `n`, and below it
      when `n` is positive. */
  lemma {:induction false} ScaleBelow(u: real, n: nat)
    requires 0.0 <= u < 1.0
    ensures 0.0 <= u * n as real <= n as real
    ensures n > 0 ==> u * n as real < n as real
  {
    if n > 0 {
      ScaleBelow(u, n - 1);
      assert u * n as real == u * (n - 1) as real + u;
    }
  }

  /** `getRandomArrayElement(arr)` where `Math.random()` returned `u`:
      `undefined` exactly for an empty array, otherwise an element of it. */
  function RandomArrayElement<T>(arr: seq<T>, u: real): (r: Option<T>)
    requires 0.0 <= u < 1.0
    ensures r.None? <==> arr == []
    ensures r.Some? ==> r.value in arr
  {
    if arr == [] then None else Some(arr[DrawIndex(|arr|, u)])
  }

  /** Every element can come out: a draw of `k / n` gives the `k`-th. */
  lemma EveryElementDrawable<T>(arr: seq<T>, k: nat)
    requires k < |arr|
    ensures 0.0 <= k as real / |arr| as real < 1.0
    ensures RandomArrayElement(arr, k as real / |arr| as real) == Some(arr[k])
  {
    var n := |arr| as real;
    var u := k as real / n;
    DivisionCancels(k as real, n);
    DivisionBelowOne(k as real, n);
    var i := DrawIndex(|arr|, u);
    assert i as real <= k as real < i as real + 1.0;
  }

  lemma DivisionCancels(a: real, n: real)
    requires n > 0.0
    ensures (a / n) * n == a
  {
  }

  lemma DivisionBelowOne(a: real, n: real)
    requires 0.0 <= a < n
    ensures 0.0 <= a / n < 1.0
  {
    DivisionCancels(a, n);
  }

  /** The hedge word of a refined guess is always one of the three choices. */
  function Hedge(u: real): (w: string)
    requires 0.0 <= u < 1.0
    ensures w in Choices
  {
    RandomArrayElement(Choices, u).value
  }

  /** `emotion` is present and its upper-case form is neither NEUTRAL nor
      DEFAULT. */
  function IsSpecificEmotion(emotion: Option<string>): (specific: bool)
    ensures specific <==> Truthy(emotion) && ToUpper(emotion.value) != "NEUTRAL" && ToUpper(emotion.value) != "DEFAULT"
  {
    assert NonSpecificEmotionStates == ["NEUTRAL", "DEFAULT"];
    Truthy(emotion) && ToUpper(emotion.value) !in NonSpecificEmotionStates
  }

  /** The `objects` parameter as a list: its comma-separated pieces in
      order, without those that are blank (the kept pieces are not
      trimmed); nothing for an absent or empty parameter. */
  function ParseObjects(objects: Option<string>): (list: seq<string>)
    ensures forall i :: 0 <= i < |list| ==> !IsBlank(list[i]) && ',' !in list[i]
  {
    if Truthy(objects) then KeepNonBlank(Split(objects.value, ',')) else []
  }

  /** Which pieces are kept: a piece of the comma split is among the
      objects exactly when it is not blank, so a parameter none of whose
      pieces is blank parses into exactly its pieces; a blank or missing
      parameter parses into no objects. */
  lemma ParseObjectsPieces(objects: Option<string>)
    ensures Truthy(objects) ==>
              forall p :: p in ParseObjects(objects) <==> p in Split(objects.value, ',') && !IsBlank(p)
    ensures Truthy(objects) && (forall p :: p in Split(objects.value, ',') ==> !IsBlank(p))
            ==> ParseObjects(objects) == Split(objects.value, ',')
    ensures !Truthy(objects) ==> ParseObjects(objects) == []
  {
    if Truthy(objects) && (forall p :: p in Split(objects.value, ',') ==> !IsBlank(p)) {
      KeepNonBlankKeepsAll(Split(objects.value, ','));
    }
  }

  /** The parser is the filter of the split for every string, the empty
      one included (its single piece is blank). */
  lemma ParseObjectsIsFiltered(s: string)
    ensures ParseObjects(Some(s)) == KeepNonBlank(Split(s, ','))
  {
  }

  /** A comma-free parameter is one object, or none when it is blank. */
  lemma ParseObjectsOfPiece(s: string)
    requires ',' !in s
    ensures ParseObjects(Some(s)) == (if IsBlank(s) then [] else [s])
  {
    SplitJoin([s], ',');
    ParseObjectsIsFiltered(s);
  }

  /** Order is kept: the objects of `s + "," + t` are those of `s`
      followed by those of `t`. With `ParseObjectsOfPiece` this fixes the
      parse of every parameter, blank pieces included. */
  lemma ParseObjectsAtComma(s: string, t: string)
    ensures ParseObjects(Some(s + "," + t)) == ParseObjects(Some(s)) + ParseObjects(Some(t))
  {
    SplitAtSeparator(s, t, ',');
    KeepNonBlankAppend(Split(s, ','), Split(t, ','));
    ParseObjectsIsFiltered(s);
    ParseObjectsIsFiltered(t);
    ParseObjectsIsFiltered(s + "," + t);
  }

  /** An empty piece between two objects is dropped: "cup,,pen" gives
      the two objects "cup" and "pen". */
  lemma EmptyPieceDropped(a: string, b: string)
    requires ',' !in a && ',' !in b && !IsBlank(a) && !IsBlank(b)
    ensures ParseObjects(Some(a + ",," + b)) == [a, b]
  {
    var t := "," + b;
    CommaRegroup(a, b);
    ParseObjectsAtComma(a, t);
    LeadingCommaDropped(b);
    ParseObjectsOfPiece(a);
  }

  lemma CommaRegroup(a: string, b: string)
    ensures a + ",," + b == a + "," + ("," + b)
  {
    assert ",," == "," + ",";
  }

  /** An empty first piece is dropped too. */
  lemma LeadingCommaDropped(b: string)
    requires ',' !in b && !IsBlank(b)
    ensures ParseObjects(Some("," + b)) == [b]
  {
    ParseObjectsAtComma("", b);
    assert "" + "," + b == "," + b;
    ParseObjectsOfPiece(b);
  }

  // ---------------------------------------------------------------------
  // Emotion speech

  const FallbackQuip: string := "I actually don't know what you're doing right now"

  /** The canned sentence of each emotion tag, keyed by upper-case tag. */
  const QuipTable: seq<(string, string)> := [
    ("HAPPY", "That smile is brighter than my future. Keep it up!"),
    ("SAD", "On the bright side, you're saving a lot of facial muscle energy."),
    ("ANGRY", "I see you're practicing your supervillain glare. It's working."),
    ("SURPRISED", "You look like you just remembered an embarrassing moment from 2008."),
    ("CALM", "Please share your secrets. My Roomba has more anxiety than you do."),
    ("FEAR", "You look like you just saw your weekly screen time report."),
    ("DISGUST", "That's the face of someone who just stepped on something wet while wearing socks"),
    ("DEFAULT", "Hmm, couldn't quite read that expression.")
  ]

  /** The sentence of the first entry of `table` whose key is `key`, or
      the fallback. */
  function Lookup(table: seq<(string, string)>, key: string): (r: string)
    ensures r == FallbackQuip || exists i :: 0 <= i < |table| && table[i].0 == key && r == table[i].1
  {
    if table == [] then FallbackQuip
    else if table[0].0 == key then table[0].1
    else
      var r := Lookup(table[1..], key);
      assert forall i :: 0 <= i < |table[1..]| ==> table[1..][i] == table[i + 1];
      r
  }

  /** The `switch` of `handleEmotionResponse`, on the upper-case tag. */
  function Quip(tag: string): (q: string)
    ensures q == FallbackQuip || exists i :: 0 <= i < |QuipTable| && QuipTable[i].0 == ToUpper(tag) && q == QuipTable[i].1
  {
    Lookup(QuipTable, ToUpper(tag))
  }

  predicate DistinctKeys(table: seq<(string, string)>) {
    forall i, j :: 0 <= i < j < |table| ==> table[i].0 != table[j].0
  }

  lemma {:induction false} LookupFinds(table: seq<(string, string)>, i: nat)
    requires DistinctKeys(table) && i < |table|
    ensures Lookup(table, table[i].0) == table[i].1
  {
    if i > 0 {
      assert table[0].0 != table[i].0;
      assert DistinctKeys(table[1..]) by {
        forall a, b | 0 <= a < b < |table[1..]| ensures table[1..][a].0 != table[1..][b].0 {
          assert table[1..][a] == table[a + 1] && table[1..][b] == table[b + 1];
        }
      }
      LookupFinds(table[1..], i - 1);
    }
  }

  lemma {:induction false} LookupMisses(table: seq<(string, string)>, key: string)
    requires forall i :: 0 <= i < |table| ==> table[i].0 != key
    ensures Lookup(table, key) == FallbackQuip
  {
    if table != [] {
      LookupMisses(table[1..], key);
    }
  }

  /** The quip table, case-insensitively: a tag whose upper-case form is the
      key of an entry gets that entry's sentence, any other tag the
      fallback. */
  lemma QuipTableLookup(tag: string)
    ensures forall i :: 0 <= i < |QuipTable| && ToUpper(tag) == QuipTable[i].0 ==> Quip(tag) == QuipTable[i].1
    ensures (forall i :: 0 <= i < |QuipTable| ==> ToUpper(tag) != QuipTable[i].0) ==> Quip(tag) == FallbackQuip
  {
    QuipKeysDistinct();
    forall i | 0 <= i < |QuipTable| && ToUpper(tag) == QuipTable[i].0 ensures Quip(tag) == QuipTable[i].1 {
      LookupFinds(QuipTable, i);
    }
    if forall i :: 0 <= i < |QuipTable| ==> ToUpper(tag) != QuipTable[i].0 {
      LookupMisses(QuipTable, ToUpper(tag));
    }
  }

  lemma QuipKeysDistinct()
    ensures DistinctKeys(QuipTable)
  {
  }

  /** The table is one-to-one: the eight sentences differ from each other
      and from the fallback. */
  lemma QuipTableOneToOne()
    ensures forall i, j :: 0 <= i < j < |QuipTable| ==> QuipTable[i].1 != QuipTable[j].1
    ensures forall i :: 0 <= i < |QuipTable| ==> QuipTable[i].1 != FallbackQuip
  {
  }

  /** `handleEmotionResponse(detected)`: nothing to say for NEUTRAL (in any
      case); otherwise "You seem to be <tag in lower case>. <quip>". */
  function HandleEmotionResponse(detected: string): (speech: Option<string>)
    ensures speech.None? <==> ToUpper(detected) == "NEUTRAL"
    ensures speech.Some? ==> speech.value == "You seem to be " + ToLower(detected) + ". " + Quip(detected)
  {
    if ToUpper(detected) == "NEUTRAL" then None
    else Some("You seem to be " + ToLower(detected) + ". " + Quip(detected))
  }

  /** The emotion speech does not depend on the case of the tag. */
  lemma EmotionSpeechIgnoresCase(a: string, b: string)
    requires ToUpper(a) == ToUpper(b)
    ensures HandleEmotionResponse(a) == HandleEmotionResponse(b)
  {
    SameUpperSameLower(a, b);
  }

  // ---------------------------------------------------------------------
  // Object speech

  const GenericObjectSpeech: string := "I couldn't identify a specific object, but I see some things."

  /** "a X" for every object X. */
  function Articled(objects: seq<string>): (phrases: seq<string>)
    ensures |phrases| == |objects|
  {
    seq(|objects|, i requires 0 <= i < |objects| => "a " + objects[i])
  }

  /** English list grammar with the serial comma: "p1, p2, ..., and pn". */
  function SerialList(phrases: seq<string>): string
    requires |phrases| >= 2
  {
    if |phrases| == 2 then phrases[0] + ", and " + phrases[1]
    else phrases[0] + ", " + SerialList(phrases[1..])
  }

  /** "p", "p and q", or the serial list for three or more. */
  function EnglishList(phrases: seq<string>): string
    requires |phrases| >= 1
  {
    if |phrases| == 1 then phrases[0]
    else if |phrases| == 2 then phrases[0] + " and " + phrases[1]
    else SerialList(phrases)
  }

  /** The sentence `handleObjectResponse` builds from the raw objects. It
      follows English grammar: "I can see " followed by "a X" for every
      object, joined as one, two, or a serial-comma list. */
  function ListSentence(objects: seq<string>): (sentence: string)
    requires |objects| >= 1
    ensures sentence == "I can see " + EnglishList(Articled(objects)) + "."
  {
    var n := |objects|;
    if n == 1 then
      assert EnglishList(Articled(objects)) == "a " + objects[0];
      "I can see " + ("a " + objects[0]) + "."
    else if n == 2 then
      assert EnglishList(Articled(objects)) == "a " + objects[0] + " and " + ("a " + objects[1]);
      "I can see " + ("a " + objects[0] + " and " + "a " + objects[1]) + "."
    else
      JoinedIsSerial(objects[..n - 1], objects[n - 1]);
      assert objects[..n - 1] + [objects[n - 1]] == objects;
      "I can see " + ("a " + Join(objects[..n - 1], ", a ") + ", and a " + objects[n - 1]) + "."
  }

  lemma {:induction false} JoinedIsSerial(init: seq<string>, last: string)
    requires |init| >= 1
    ensures "a " + Join(init, ", a ") + ", and a " + last == SerialList(Articled(init + [last]))
  {
    var ps := Articled(init + [last]);
    if |init| == 1 {
      assert ps == ["a " + init[0], "a " + last];
    } else {
      JoinedIsSerial(init[1..], last);
      assert Articled(init[1..] + [last]) == ps[1..];
      assert ps[0] == "a " + init[0];
      assert Join(init, ", a ") == init[0] + ", a " + Join(init[1..], ", a ");
    }
  }

  /** `handleObjectResponse(refinedLabel, originalObjects)` where
      `Math.random()` returned `u`: a guess at a usable refined label with
      one of the hedge words; failing that, the objects as an English list;
      failing that, the generic sentence. */
  function HandleObjectResponse(refinedLabel: Option<string>, originalObjects: seq<string>, u: real): (speech: string)
    requires 0.0 <= u < 1.0
    ensures Truthy(refinedLabel) ==>
              exists w :: w in Choices && speech == "I " + w + " that's " + refinedLabel.value + "."
    ensures !Truthy(refinedLabel) && |originalObjects| >= 1 ==>
              speech == "I can see " + EnglishList(Articled(originalObjects)) + "."
    ensures !Truthy(refinedLabel) && originalObjects == [] ==> speech == GenericObjectSpeech
  {
    var randomChoice := Hedge(u);
    if Truthy(refinedLabel) then "I " + randomChoice + " that's " + refinedLabel.value + "."
    else if |originalObjects| > 0 then
      ListSentence(originalObjects)
    else GenericObjectSpeech
  }

  // ---------------------------------------------------------------------
  // The decision

  /** `primaryDetection`: 'initial' | 'emotion' | 'objects'. */
  datatype Detection = Initial | EmotionLed | ObjectLed

  /** What the decision sets in motion: nothing, speaking a sentence, or
      refining the object list. */
  datatype Effect = Silent | Speak(text: string) | Refine(objectList: seq<string>)

  /** The screen state the parameters lead to, and the follow-up effect. */
  datatype Decision = Decision(currentEmotion: Option<string>, detectedObjects: seq<string>,
                               primary: Detection, isRefiningLabel: bool, effect: Effect)

  function EmotionEffect(detected: string): Effect {
    match HandleEmotionResponse(detected)
    case Some(text) => Speak(text)
    case None => Silent
  }

  /** The body of the effect that runs when the route parameters change. */
  function Decide(emotion: Option<string>, objects: Option<string>): (d: Decision)
    ensures d.currentEmotion == (if Truthy(emotion) then emotion else None)
    ensures d.detectedObjects == ParseObjects(objects)
    ensures d.isRefiningLabel <==> d.effect.Refine?
    ensures d.effect.Refine? <==> d.primary == ObjectLed
    ensures d.effect.Refine? ==> d.effect.objectList == d.detectedObjects != []
    ensures d.effect.Speak? ==> d.primary == EmotionLed
    ensures d.primary == Initial <==> !Truthy(emotion) && d.detectedObjects == []
  {
    var current := if Truthy(emotion) then emotion else None;
    var objectList := ParseObjects(objects);
    if IsSpecificEmotion(emotion) then Decision(current, objectList, EmotionLed, false, EmotionEffect(emotion.value))
    else if |objectList| > 0 then Decision(current, objectList, ObjectLed, true, Refine(objectList))
    else if Truthy(emotion) then Decision(current, objectList, EmotionLed, false, Silent)
    else Decision(current, objectList, Initial, false, Silent)
  }

  /** The priority: a specific emotion leads and is spoken whatever the
      objects; otherwise objects lead and refinement starts; otherwise a
      present emotion leads silently; otherwise nothing is shown. Only the
      objects branch is left refining, and only the emotion branch speaks. */
  lemma DecisionPriority(emotion: Option<string>, objects: Option<string>)
    ensures var d := Decide(emotion, objects);
            && (IsSpecificEmotion(emotion) ==>
                  (d.primary == EmotionLed && d.effect.Speak?
                   && d.effect.text == "You seem to be " + ToLower(emotion.value) + ". " + Quip(emotion.value)))
            && (!IsSpecificEmotion(emotion) && ParseObjects(objects) != [] ==>
                  d.primary == ObjectLed && d.effect == Refine(ParseObjects(objects)))
            && (!IsSpecificEmotion(emotion) && ParseObjects(objects) == [] && Truthy(emotion) ==>
                  d.primary == EmotionLed && d.effect == Silent)
  {
  }

  /** A refinement answer is used only when it is a non-empty string other
      than the "Objects" sentinel; a failed refinement is not used. */
  function UsableRefinement(outcome: Result<Option<string>, string>): (usable: bool)
    ensures outcome.Err? ==> !usable
    ensures outcome.Ok? && outcome.value == Some(Gemini.Sentinel) ==> !usable
    ensures usable ==> Truthy(outcome.value)
    ensures outcome.Ok? && Truthy(outcome.value) && outcome.value.value != Gemini.Sentinel ==> usable
  {
    outcome.Ok? && Truthy(outcome.value) && outcome.value.value != Gemini.Sentinel
  }

  // ---------------------------------------------------------------------
  // The sound slot

  /** An opaque handle on a loaded sound. */
  datatype SoundHandle = SoundHandle(id: nat)

  /** The calls made on sounds, in order. */
  datatype AudioCall = CreateSound(handle: SoundHandle) | StopSound(handle: SoundHandle) | UnloadSound(handle: SoundHandle)

  /** What one call does to the set of loaded sounds. */
  function Step(live: set<SoundHandle>, call: AudioCall): set<SoundHandle> {
    match call
    case CreateSound(h) => live + {h}
    case UnloadSound(h) => live - {h}
    case StopSound(_) => live
  }

  /** The sounds created by `log` and not unloaded since. */
  function Live(log: seq<AudioCall>): set<SoundHandle>
    decreases |log|
  {
    if log == [] then {} else Step(Live(log[..|log| - 1]), log[|log| - 1])
  }

  lemma LiveAppend(log: seq<AudioCall>, call: AudioCall)
    ensures Live(log + [call]) == Step(Live(log), call)
  {
    assert (log + [call])[..|log|] == log;
  }

  /** The unload call for the sound in a slot, if any. */
  function Unloading(sound: Option<SoundHandle>): seq<AudioCall> {
    if sound.Some? then [UnloadSound(sound.value)] else []
  }

  /** The creation of a sound, if it succeeded. */
  function Creating(created: Option<SoundHandle>): seq<AudioCall> {
    if created.Some? then [CreateSound(created.value)] else []
  }

  function Slot(sound: Option<SoundHandle>): set<SoundHandle> {
    if sound.Some? then {sound.value} else {}
  }

  /** Unloading the sound in the slot leaves no sound loaded. */
  lemma UnloadingEmptiesSlot(log: seq<AudioCall>, sound: Option<SoundHandle>)
    requires Live(log) <= Slot(sound)
    ensures Live(log + Unloading(sound)) == {}
  {
    if sound.Some? {
      LiveAppend(log, UnloadSound(sound.value));
    } else {
      assert log + Unloading(sound) == log;
    }
  }

  /** Unloading the sound in the slot and then creating a sound leaves
      every loaded sound in the slot, whichever sound the slot then holds. */
  lemma ReplaceSound(log: seq<AudioCall>, sound: Option<SoundHandle>, created: Option<SoundHandle>)
    requires Live(log) <= Slot(sound)
    ensures Live(log + (Unloading(sound) + Creating(created))) <= Slot(if created.Some? then created else sound)
  {
    UnloadingEmptiesSlot(log, sound);
    CreatingFillsSlot(log + Unloading(sound), created);
    assert log + Unloading(sound) + Creating(created) == log + (Unloading(sound) + Creating(created));
  }

  /** From no loaded sound, creating one leaves exactly it loaded. */
  lemma CreatingFillsSlot(log: seq<AudioCall>, created: Option<SoundHandle>)
    requires Live(log) == {}
    ensures Live(log + Creating(created)) == Slot(created)
  {
    if created.Some? {
      LiveAppend(log, CreateSound(created.value));
    } else {
      assert log + Creating(created) == log;
    }
  }

  /** With every live sound in the slot, at most one sound is live. */
  lemma AtMostOneLiveSound(log: seq<AudioCall>, sound: Option<SoundHandle>)
    requires Live(log) <= Slot(sound)
    ensures |Live(log)| <= 1
  {
    if sound.Some? {
      assert Live(log) == {} || Live(log) == {sound.value};
    } else {
      assert Live(log) == {};
    }
  }

  class ResultsScreen {
    var currentEmotion: Option<string>
    var detectedObjects: seq<string>
    var primaryDetection: Detection
    var refinedObjectLabel: Option<string>
    var isRefiningLabel: bool
    /** The single sound slot. */
    var sound: Option<SoundHandle>
    /** Every call made on a sound, in order. */
    ghost var audioLog: seq<AudioCall>

    /** Every sound that is still loaded is the one in the slot. */
    ghost predicate Valid()
      reads this
    {
      Live(audioLog) <= Slot(sound)
    }

    /** The five result fields at their initial values. */
    ghost predicate Reset()
      reads this
    {
      && currentEmotion == None && detectedObjects == [] && primaryDetection == Initial
      && refinedObjectLabel == None && !isRefiningLabel
    }

    constructor()
      ensures Valid() && Reset() && sound == None && audioLog == []
    {
      currentEmotion := None;
      detectedObjects := [];
      primaryDetection := Initial;
      refinedObjectLabel := None;
      isRefiningLabel := false;
      sound := None;
      audioLog := [];
    }

    /** The effect run when the `emotion` and `objects` parameters change:
        the refined label is cleared and the rest of the state is what
        `Decide` gives; the returned effect is what it sets in motion. */
    method OnRouteParams(emotion: Option<string>, objects: Option<string>) returns (effect: Effect)
      modifies this
      ensures var d := Decide(emotion, objects);
              && currentEmotion == d.currentEmotion && detectedObjects == d.detectedObjects
              && primaryDetection == d.primary && isRefiningLabel == d.isRefiningLabel && effect == d.effect
      ensures refinedObjectLabel == None
      ensures sound == old(sound) && audioLog == old(audioLog)
    {
      ghost var d := Decide(emotion, objects);
      var emotionResult: Option<string> := None;
      var objectList: seq<string> := [];
      var isSpecificEmotion := false;

      refinedObjectLabel := None;

      if Truthy(emotion) {
        emotionResult := emotion;
        currentEmotion := emotion;
        isSpecificEmotion := ToUpper(emotion.value) !in NonSpecificEmotionStates;
      } else {
        currentEmotion := None;
      }
      assert isSpecificEmotion == IsSpecificEmotion(emotion);

      if Truthy(objects) {
        objectList := KeepNonBlank(Split(objects.value, ','));
        detectedObjects := objectList;
      } else {
        detectedObjects := [];
      }
      assert objectList == ParseObjects(objects);
      assert currentEmotion == d.currentEmotion && detectedObjects == d.detectedObjects;

      if isSpecificEmotion {
        primaryDetection := EmotionLed;
        isRefiningLabel := false;
        effect := EmotionEffect(emotionResult.value);
      } else if |objectList| > 0 {
        primaryDetection := ObjectLed;
        isRefiningLabel := true;
        effect := Refine(objectList);
      } else if emotionResult.Some? {
        primaryDetection := EmotionLed;
        isRefiningLabel := false;
        effect := Silent;
      } else {
        primaryDetection := Initial;
        isRefiningLabel := false;
        effect := Silent;
      }
    }

    /** The continuation of the refinement started for `objectList`, given
        how `getRefinedObjectLabel` settled and what `Math.random()` gave: a
        usable label is kept and guessed at, anything else (including a
        failure) clears it and lists the raw objects; refining ends either
        way. Returns the sentence to speak. */
    method SettleRefinement(objectList: seq<string>, outcome: Result<Option<string>, string>, u: real)
      returns (speech: string)
      requires 0.0 <= u < 1.0
      modifies this
      ensures !isRefiningLabel
      ensures refinedObjectLabel.Some? <==> UsableRefinement(outcome)
      ensures refinedObjectLabel.Some? ==> refinedObjectLabel == outcome.value
      ensures speech == HandleObjectResponse(refinedObjectLabel, if UsableRefinement(outcome) then [] else objectList, u)
      ensures currentEmotion == old(currentEmotion) && detectedObjects == old(detectedObjects)
      ensures primaryDetection == old(primaryDetection)
      ensures sound == old(sound) && audioLog == old(audioLog)
    {
      if outcome.Ok? && Truthy(outcome.value) && outcome.value.value != Gemini.Sentinel {
        refinedObjectLabel := outcome.value;
        speech := HandleObjectResponse(outcome.value, [], u);
      } else {
        speech := HandleObjectResponse(None, objectList, u);
        refinedObjectLabel := None;
      }
      isRefiningLabel := false;
    }

    /** `playVoiceMessage(text)`, given the synthesis service's answer and
        the sound `createAsync` produced (`None` when it threw). With audio,
        the sound in the slot is unloaded first and a created sound then takes
        the slot; without audio nothing changes. */
    method PlayVoiceMessage(text: string, reply: Option<string>, created: Option<SoundHandle>)
      requires Valid()
      modifies this
      ensures Valid()
      ensures audioLog == old(audioLog)
                          + (if FetchAudioFromText(text, reply).Some? then Unloading(old(sound)) + Creating(created) else [])
      ensures sound == (if FetchAudioFromText(text, reply).Some? && created.Some? then created else old(sound))
      ensures currentEmotion == old(currentEmotion) && detectedObjects == old(detectedObjects)
      ensures primaryDetection == old(primaryDetection) && refinedObjectLabel == old(refinedObjectLabel)
      ensures isRefiningLabel == old(isRefiningLabel)
    {
      var audioContent := FetchAudioFromText(text, reply);
      if audioContent.Some? {
        ReplaceSound(audioLog, sound, created);
        audioLog := audioLog + (Unloading(sound) + Creating(created));
        if created.Some? {
          sound := created;
        }
      } else {
        assert audioLog == audioLog + [];
      }
    }

    /** `HandleAnalyzeAgain`: the sound in the slot is stopped and unloaded
        and the slot emptied, so no sound is left loaded; the five result
        fields go back to their initial values. */
    method HandleAnalyzeAgain()
      requires Valid()
      modifies this
      ensures Valid() && Reset() && sound == None && Live(audioLog) == {}
      ensures audioLog == old(audioLog)
                          + (if old(sound).Some? then [StopSound(old(sound).value), UnloadSound(old(sound).value)] else [])
    {
      if sound.Some? {
        LiveAppend(audioLog, StopSound(sound.value));
        audioLog := audioLog + [StopSound(sound.value)];
        LiveAppend(audioLog, UnloadSound(sound.value));
        audioLog := audioLog + [UnloadSound(sound.value)];
        sound := None;
      }
      currentEmotion := None;
      detectedObjects := [];
      primaryDetection := Initial;
      refinedObjectLabel := None;
      isRefiningLabel := false;
    }

    /** The cleanup run when the screen unmounts: the sound in the slot is
        unloaded. */
    method Unmount()
      requires Valid()
      modifies this
      ensures Live(audioLog) == {}
      ensures audioLog == old(audioLog) + (if sound.Some? then [UnloadSound(sound.value)] else [])
      ensures sound == old(sound)
      ensures currentEmotion == old(currentEmotion) && detectedObjects == old(detectedObjects)
      ensures primaryDetection == old(primaryDetection) && refinedObjectLabel == old(refinedObjectLabel)
      ensures isRefiningLabel == old(isRefiningLabel)
    {
      if sound.Some? {
        LiveAppend(audioLog, UnloadSound(sound.value));
        audioLog := audioLog + [UnloadSound(sound.value)];
      }
    }
  }
}
