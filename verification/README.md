# Vision: capture, analyse, narrate — a Dafny model

Vision is a small Expo / React Native app. Its capture screen takes a photo
and has AWS Rekognition detect the emotion on the first face and the
objects in the picture. It then passes both, as the route parameters
`emotion` and `objects`, to the results screen. That screen decides which
detection leads. For an emotion it speaks a canned quip. For objects it asks
Gemini for the single most specific object name, then speaks a guess ("I
think that's a mug.") or lists the raw labels ("I can see a cup, a pen, and
a book."). Speech comes from Google Text-to-Speech and plays through a
single sound slot.

This project models the app's own decision and string logic and proves
properties of it:

- `base.dfy` (`Base`): `Option`, `Result`, and JavaScript truthiness of an
  optional string.
- `text.dfy` (`Text`): the JavaScript string operations the app relies on.
  `trim` uses the ECMAScript white-space set. `toUpperCase`/`toLowerCase`
  map ASCII letters. It also has `split` on one character, `join`, and
  `length` counted in UTF-16 code units. It proves both round trips between
  `split` and `join`.
- `rekognition.dfy` (`Rekognition`): how the DetectFaces and DetectLabels
  responses are reduced. This covers the dominant-emotion fold with its
  `NEUTRAL`/`DEFAULT` fallbacks and the empty-labels fallback.
- `gemini.dfy` (`Gemini`): `getRefinedObjectLabel`. This covers the
  empty-input guard, the prompt, and validation of the trimmed reply against
  the `"Objects"` sentinel.
- `capture.dfy` (`Capture`): the capture screen. The class `CaptureScreen`
  holds `isAnalyzing`, `isCameraReady` and `facing`. The pure encoder
  builds the route parameters.
- `results.dfy` (`Results`): the results screen. It parses the parameters,
  applies the decision priority, and builds the emotion and object
  sentences. The class `ResultsScreen` holds the five result fields and the
  sound slot, with a log of the calls made on sounds.
- `tts.dfy` (`Tts`): `fetchAudioFromText` of the text-to-speech wrapper,
  with its blank-text guard.
- `pipeline.dfy` (`Pipeline`): what holds across the two screens. This
  includes the join/split round trip of the `objects` parameter.

Remote services, the camera, the file system and `Math.random` are
parameters of the operations that await them: each is given as what it
produced, or the fact that it failed. The `Promise.all` over the two
analyses is sequential here, and succeeds only when both succeed.

The model keeps these details of the app:

- A press that the capture guard rejects ends silently, with a console
  warning and no error alert. Only the later failures show the alert.
- The emotion tag is any string, not a closed set: tags outside the quip
  table get the fallback quip.
- The results screen receives label names only, without confidences.

## Model

| member | source | states |
|---|---|---|
| `Text.Trim` | app/index.tsx:63 | the trimmed string is empty exactly when the input is all white space; otherwise it neither starts nor ends with white space |
| `Text.TrimIsInfix` | lib/gemini.ts:66 | trimming keeps a contiguous part of the string and drops only white space on either side |
| `Text.ToUpper` | app/index.tsx:56 | upper-casing keeps the length, leaves no lower-case ASCII letter, and changes no character except by case |
| `Text.ToLower` | app/index.tsx:150 | lower-casing keeps the length, leaves no upper-case ASCII letter, and changes no character except by case |
| `Text.SameUpperSameLower` | app/index.tsx:150 | two tags equal ignoring case have the same lower-case form, so the spoken tag does not depend on its case |
| `Text.Utf16Length` | lib/gemini.ts:71 | the JavaScript length is between one and two code units per character, and one character counts two exactly when it lies outside the Basic Multilingual Plane |
| `Text.Utf16Append` | lib/gemini.ts:71 | the length of a concatenation is the sum of the lengths, so together with the one-character case every string's length is the sum of its characters' code units |
| `Text.Join` | app/capture.tsx:86 | joining no pieces gives the empty string and joining one piece gives that piece, with no separator |
| `Text.Split` | app/index.tsx:63 | `split(',')` gives at least one piece and no piece contains the separator |
| `Text.JoinSplit` | app/index.tsx:63 | joining the pieces of a split with the separator gives back the original string |
| `Text.SplitJoin` | app/capture.tsx:86 | splitting a join of separator-free pieces gives back the pieces, in order |
| `Text.JoinPieceAt` | lib/gemini.ts:59 | every joined piece appears verbatim at its offset, after the previous piece and the separator |
| `Text.JoinSeparatorAt` | lib/gemini.ts:59 | between each piece and the next stands exactly the separator |
| `Text.JoinEnds` | lib/gemini.ts:59 | the joined string ends with the last piece: nothing follows it |
| `Text.SplitAtSeparator` | app/index.tsx:63 | the pieces of `s + c + t` are the pieces of `s` followed by the pieces of `t` |
| `Text.KeepNonBlank` | app/index.tsx:63 | a piece is kept exactly when it is not blank, untrimmed; a single piece is kept or dropped on its own; never more pieces than given |
| `Text.KeepNonBlankAppend` | app/index.tsx:63 | the filter works piece by piece: filtering a concatenation concatenates the filtered parts, so order is kept |
| `Text.KeepNonBlankKeepsAll` | app/index.tsx:63 | when no piece is blank the filter keeps every piece |
| `Rekognition.Dominant` | lib/rekognition.ts:35-37 | the `reduce` result is one of the emotions and its confidence is at least that of every emotion |
| `Rekognition.DominantIsLastMaximum` | lib/rekognition.ts:36 | ties go to the later entry: the result is the last entry with the top confidence (or the start, if strictly above all) |
| `Rekognition.LastMaximumIndex` | lib/rekognition.ts:35-37 | for a non-empty list, the picked entry is at an index whose confidence is maximal, and every later entry is strictly less confident |
| `Rekognition.AnalyzeImageForEmotion` | lib/rekognition.ts:27-48 | a service error becomes an error and nothing else does; a successful answer is never empty |
| `Rekognition.NoEmotionsIsNeutral` | lib/rekognition.ts:31-43 | with no face, or a first face without emotions, the answer is `NEUTRAL` |
| `Rekognition.OnlyFirstFaceCounts` | lib/rekognition.ts:32 | faces after the first never change the answer |
| `Rekognition.DominantEmotionChosen` | lib/rekognition.ts:33-39 | the answer is the `Type` of a maximally confident emotion (the last such), or `DEFAULT` when it has no `Type` |
| `Rekognition.AnalyzeImageForObjects` | lib/rekognition.ts:61-69 | the labels of the response, `[]` when it has none; a service error becomes an error |
| `Gemini.Prompt` | lib/gemini.ts:59-60 | the prompt opens with the fixed text ending in "[" and closes with the fixed text starting with "]" |
| `Gemini.LabelsInPrompt` | lib/gemini.ts:59-60 | the prompt carries every label verbatim, in order, each after the previous label and its separator |
| `Gemini.CommaBetweenLabels` | lib/gemini.ts:59-60 | between one label and the next the prompt holds exactly ", " |
| `Gemini.TailAfterLastLabel` | lib/gemini.ts:59-60 | after the last label the prompt continues with the closing "]" and the fixed instruction, and nothing else |
| `Gemini.AcceptReply` | lib/gemini.ts:66-71 | the trimmed reply is kept exactly when its length is 1 to 49 code units, and is otherwise replaced by `"Objects"` |
| `Gemini.GetRefinedObjectLabel` | lib/gemini.ts:40-83 | no model call and `null` for absent or empty labels; `null` when the call fails; otherwise exactly the reply as accepted by `AcceptReply`: the sentinel or a trimmed reply of 1 to 49 code units |
| `Gemini.RefinedLabelShape` | lib/gemini.ts:41-82 | the answer is always `null`, `"Objects"`, or a non-empty label of fewer than 50 characters without white space at either end |
| `Capture.Toggled` | app/capture.tsx:19-21 | toggling always changes the facing (so toggling twice restores it) |
| `Capture.ObjectNames` | app/capture.tsx:78-80 | there are never more names than labels |
| `Capture.ObjectNamesAppend` | app/capture.tsx:78-80 | names are produced label by label, in order |
| `Capture.ObjectNamesAreTheNames` | app/capture.tsx:78-80 | a string is among the names exactly when some label has it as its name |
| `Capture.EncodeParams` | app/capture.tsx:82-87 | the `emotion` parameter is never empty and is the analysed emotion when that is non-empty; `objects` is the names joined with "," |
| `Capture.CaptureScreen.constructor` | app/capture.tsx:11-16 | not analysing, camera not ready, facing front |
| `Capture.CaptureScreen.ToggleCameraFacing` | app/capture.tsx:19-21 | the facing becomes the other one and nothing else changes |
| `Capture.CaptureScreen.OnCameraReady` | app/capture.tsx:114 | the camera becomes ready and nothing else changes |
| `Capture.CaptureScreen.CaptureDisabled` | app/capture.tsx:123-125 | the button is disabled exactly when the camera is not ready or an analysis runs |
| `Capture.CaptureScreen.TakePictureAndAnalyze` | app/capture.tsx:36-97 | rejected with no change exactly when the button is disabled or the camera ref is null; `isAnalyzing` is raised only after a picture with a URI; every failure lowers it and navigates nowhere; success navigates with the encoded parameters |
| `Results.DrawIndex` | app/index.tsx:15 | `Math.floor(Math.random() * n)` is an index below `n`, the whole part of `u * n` |
| `Results.RandomArrayElement` | app/index.tsx:13-17 | `undefined` exactly for an empty array, otherwise an element of it (the drawn index is in range) |
| `Results.EveryElementDrawable` | app/index.tsx:15-16 | every element can be drawn |
| `Results.Hedge` | app/index.tsx:157 | the hedge word is always "think", "believe" or "suspect" |
| `Results.IsSpecificEmotion` | app/index.tsx:53-56 | an emotion is specific exactly when it is present and its upper-case form is neither NEUTRAL nor DEFAULT |
| `Results.ParseObjects` | app/index.tsx:62-67 | the parsed objects are non-blank and hold no comma |
| `Results.ParseObjectsPieces` | app/index.tsx:62-67 | a comma-split piece is among the objects exactly when it is not blank; with no blank piece the list is exactly the pieces in order; an absent or empty parameter gives `[]` |
| `Results.ParseObjectsOfPiece` | app/index.tsx:63 | a parameter without a comma is one object, or none when it is blank |
| `Results.ParseObjectsAtComma` | app/index.tsx:63 | the objects of `s + "," + t` are those of `s` followed by those of `t`, so together with the one-piece case the parse of every parameter is fixed, blank pieces included |
| `Results.EmptyPieceDropped` | app/index.tsx:63 | an empty piece between two objects is dropped: "cup,,pen" gives "cup" and "pen" |
| `Results.LeadingCommaDropped` | app/index.tsx:63 | an empty first piece is dropped |
| `Results.Lookup` | app/index.tsx:139-148 | the answer is the fallback or the sentence of an entry whose key is the one looked up |
| `Results.Quip` | app/index.tsx:138-148 | the quip is the fallback or the sentence of the entry keyed by the upper-case tag |
| `Results.QuipTableLookup` | app/index.tsx:139-148 | a tag gets the quip of the table entry matching its upper-case form, and any other tag the fallback |
| `Results.QuipKeysDistinct` | app/index.tsx:139-147 | the eight tags of the table are distinct |
| `Results.QuipTableOneToOne` | app/index.tsx:138-147 | the eight quips are distinct from each other and from the fallback |
| `Results.HandleEmotionResponse` | app/index.tsx:135-151 | no speech exactly for NEUTRAL in any case; otherwise "You seem to be <lower-case tag>. <quip>" |
| `Results.EmotionSpeechIgnoresCase` | app/index.tsx:136-150 | tags equal ignoring case give the same speech |
| `Results.JoinedIsSerial` | app/index.tsx:167-169 | "a " + the first items joined by ", a " + ", and a " + the last is the serial-comma list of "a X" phrases |
| `Results.ListSentence` | app/index.tsx:161-170 | the list sentence is "I can see " + the "a X" phrases as one, two ("and") or a serial-comma list + "." |
| `Results.HandleObjectResponse` | app/index.tsx:155-174 | a usable refined label gives "I <hedge> that's <label>." with a hedge from the three choices; otherwise the English list of the objects; otherwise the generic sentence |
| `Results.Decide` | app/index.tsx:44-107 | the emotion is shown exactly when truthy; the objects are the parsed parameter; refining, the refine effect and the objects-led state go together and need some objects; speech only comes with an emotion-led state; the initial state stays exactly when there is neither emotion nor object |
| `Results.UsableRefinement` | app/index.tsx:81 | a refinement is used exactly when it succeeded with a non-empty label other than the "Objects" sentinel |
| `Results.DecisionPriority` | app/index.tsx:44-107 | a specific emotion leads and is spoken whatever the objects; else non-empty objects lead and refinement starts; else a present emotion leads silently; else initial; only the objects branch is refining |
| `Results.AtMostOneLiveSound` | app/index.tsx:117-127 | when every live sound is the one in the slot, at most one sound is loaded |
| `Tts.BlankText` | lib/googleTTS.ts:16 | the guard holds exactly for text that is empty or all white space |
| `Tts.FetchAudioFromText` | lib/googleTTS.ts:13-58 | blank text never yields audio; audio is returned only when the service answered with non-empty content |
| `Results.ResultsScreen.constructor` | app/index.tsx:25-32 | the five result fields start at their initial values and the slot is empty |
| `Results.ResultsScreen.OnRouteParams` | app/index.tsx:44-107 | the refined label is cleared and the state and effect are those of the decision on the parameters; the sound slot is untouched |
| `Results.ResultsScreen.SettleRefinement` | app/index.tsx:79-96 | a label is kept exactly when it is truthy and not "Objects"; otherwise (failure included) it is null and the raw objects are spoken; refining always ends |
| `Results.ReplaceSound` | app/index.tsx:117-127 | unloading the sound in the slot and creating a new one leaves every loaded sound in the slot, whether or not creation succeeded |
| `Results.ResultsScreen.PlayVoiceMessage` | app/index.tsx:110-132 | with audio, the previous sound is unloaded before the new one takes the slot, and the slot keeps its sound if creation fails; without audio nothing changes; at most one sound stays loaded |
| `Results.ResultsScreen.HandleAnalyzeAgain` | app/index.tsx:176-190 | the sound is stopped and unloaded, the slot emptied, no sound is left loaded, and the five result fields are reset |
| `Results.ResultsScreen.Unmount` | app/index.tsx:35-42 | leaving the screen unloads the sound in the slot and no sound stays loaded; the slot and the five result fields are left as they were |
| `Pipeline.ObjectsParamRoundTrip` | app/capture.tsx:78-86 | names without commas and not blank are recovered exactly, in order, by the results screen's parser |
| `Pipeline.CommaSplitsName` | app/index.tsx:63 | a name containing a comma never comes back intact as that one object |
| `Pipeline.DefaultEmotionIsNonSpecific` | app/capture.tsx:85 | the `DEFAULT` fallback is a non-specific emotion on the results screen |
| `Pipeline.NeutralIsNonSpecific` | app/index.tsx:11 | `NEUTRAL` is a non-specific emotion |
| `Pipeline.AnalyzedEmotionIsPassedOn` | app/capture.tsx:85 | the emotion analysis never answers with an empty string, so the `DEFAULT` fallback never replaces it |
| `Pipeline.NoFaceLeadsWithObjects` | app/index.tsx:70-77 | with no face and some clean label names, the results screen leads with exactly those objects and starts their refinement |
| `Pipeline.RefinementUsedOnlyWhenValid` | app/index.tsx:81 | the refined label is used exactly when the reply trims to 1–49 code units and is not "Objects" |

## Left out

- The remote services are not modelled as clients. This covers Rekognition `send`, Gemini `generateContent` and the TTS `fetch`. Their requests are not modelled either: image bytes, `Attributes: ["ALL"]`, the model name, generation and safety settings, and the voice configuration. Each call is a parameter holding its response or its failure. The label request's `MaxLabels` (10) and `MinConfidence` (75) are applied by the service and are not modelled.
- Base64 decoding (`Buffer.from`) and reading the file (`FileSystem.readAsStringAsync`) are not modelled. Only whether a non-empty payload was obtained matters.
- Camera permissions, focus and the rendering of the screens (`renderResults`, styles) are not modelled. Navigation is not modelled beyond the parameter values passed.
- Concurrency is not modelled. Each awaited step is atomic and the two analyses run one after the other, with both-or-nothing success. This does not capture the window between the guard and `setIsAnalyzing(true)` while the picture is being taken. React's batching of state updates and stale closures are also out.
- `Results.ResultsScreen.Unmount`: the cleanup effect also runs whenever `sound` changes. That re-unloads the previous, already unloaded handle. Only the unmount case is modelled.
- Calls on sounds other than `createAsync` (`unloadAsync`, `stopAsync`) are assumed to succeed. `createAsync` may fail: then the slot keeps the old handle, which has already been unloaded.
- `Math.random` is a caller-supplied `u` in [0, 1). Uniformity of the hedge word is not a property of the model.
- `toUpperCase` and `toLowerCase` are modelled on ASCII letters only. Unicode case mappings, such as a dotless i that upper-cases to `I`, are not.
- Strings are sequences of Unicode scalar values. Lone UTF-16 surrogates cannot be represented. Lengths are counted in UTF-16 code units where the code compares them.
- Confidences are reals and are always present. The code's `!` assertions hide a missing one.
- Console logging and the text of the alert are not modelled.
