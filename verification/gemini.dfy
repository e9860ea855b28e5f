/** `getRefinedObjectLabel`: asks a language model to name the single most
    specific object among the detected labels. The model call is a
    parameter: the reply text, or the error the SDK raised. */
module Gemini {
  import opened Base
  import opened Text

  /** What the model is told to answer when no single object stands out,
      and what the app uses for a reply it rejects. */
  const Sentinel: string := "Objects"

  /** A trimmed reply must be shorter than this (in UTF-16 code units). */
  const ReplyLimit: nat := 50

  const PromptHead: string := "Given the following labels detected in an image: ["
  const PromptTail: string := "], identify the single most specific and likely physical object being shown. Prioritize common, tangible items. Return only the name of that single object. If no single specific object seems likely, return \"Objects\"."

  /** The labels, joined with ", ", inside the fixed instruction: the
      prompt opens with `PromptHead` and closes with `PromptTail`. */
  function Prompt(labels: seq<string>): (p: string)
    ensures |PromptHead| + |PromptTail| <= |p|
    ensures p[..|PromptHead|] == PromptHead && p[|p| - |PromptTail|..] == PromptTail
  {
    PrefixOfThree(PromptHead, Join(labels, ", "), PromptTail);
    SuffixOfThree(PromptHead, Join(labels, ", "), PromptTail);
    PromptHead + Join(labels, ", ") + PromptTail
  }

  /** The prompt carries every label verbatim, in the original order: the
      `i`-th label stands at a fixed offset, after the previous label and
      its ", " separator. */
  lemma LabelsInPrompt(labels: seq<string>, i: nat)
    requires i < |labels|
    ensures var at := |PromptHead| + JoinOffset(labels, ", ", i);
            at + |labels[i]| <= |Prompt(labels)| && Prompt(labels)[at..at + |labels[i]|] == labels[i]
    ensures i > 0 ==> JoinOffset(labels, ", ", i) == JoinOffset(labels, ", ", i - 1) + |labels[i - 1]| + 2
  {
    JoinPieceAt(labels, ", ", i);
    InfixOfMiddle(PromptHead, Join(labels, ", "), PromptTail, JoinOffset(labels, ", ", i), |labels[i]|);
  }

  /** Between a label and the next, the prompt holds exactly ", ". */
  lemma CommaBetweenLabels(labels: seq<string>, i: nat)
    requires i + 1 < |labels|
    ensures var end := |PromptHead| + JoinOffset(labels, ", ", i) + |labels[i]|;
            end + 2 == |PromptHead| + JoinOffset(labels, ", ", i + 1) <= |Prompt(labels)|
            && Prompt(labels)[end..end + 2] == ", "
  {
    JoinSeparatorAt(labels, ", ", i);
    InfixOfMiddle(PromptHead, Join(labels, ", "), PromptTail, JoinOffset(labels, ", ", i) + |labels[i]|, 2);
  }

  /** The last label closes the list: the rest of the prompt is
      `PromptTail`, which opens with the closing "]". */
  lemma TailAfterLastLabel(labels: seq<string>)
    requires labels != []
    ensures var end := |PromptHead| + JoinOffset(labels, ", ", |labels| - 1) + |labels[|labels| - 1]|;
            end <= |Prompt(labels)| && Prompt(labels)[end..] == PromptTail
  {
    JoinEnds(labels, ", ");
    SuffixOfThree(PromptHead, Join(labels, ", "), PromptTail);
  }

  lemma InfixOfMiddle(a: string, b: string, c: string, k: nat, n: nat)
    requires k + n <= |b|
    ensures |a| + k + n <= |a + b + c| && (a + b + c)[|a| + k..|a| + k + n] == b[k..k + n]
  {
  }

  lemma SuffixOfThree(a: string, b: string, c: string)
    ensures (a + b + c)[|a| + |b|..] == c
  {
  }

  lemma PrefixOfThree(a: string, b: string, c: string)
    ensures (a + b + c)[..|a|] == a
  {
  }

  /** The validation of the trimmed reply: kept exactly when it is non-empty
      and shorter than `ReplyLimit`, otherwise replaced by `Sentinel`. */
  function AcceptReply(text: string): (r: string)
    ensures 0 < Utf16Length(Trim(text)) < ReplyLimit ==> r == Trim(text)
    ensures !(0 < Utf16Length(Trim(text)) < ReplyLimit) ==> r == Sentinel
  {
    var refined := Trim(text);
    if refined != "" && Utf16Length(refined) < ReplyLimit && Utf16Length(refined) > 0 then refined else Sentinel
  }

  /** One run of `getRefinedObjectLabel`: the prompt sent to the model
      (`None` when no call is made) and the label it resolves to. */
  datatype RefineRun = RefineRun(prompt: Option<string>, refined: Option<string>)

  /** `getRefinedObjectLabel(labels)` given what the model call would give:
      no call and `null` for absent or empty labels; `null` when the call
      fails; otherwise the validated reply. */
  function GetRefinedObjectLabel(labels: Option<seq<string>>, reply: Result<string, string>): (r: RefineRun)
    ensures r.prompt.None? <==> labels.None? || labels.value == []
    ensures r.prompt.Some? ==> r.prompt.value == Prompt(labels.value)
    ensures r.refined.None? <==> r.prompt.None? || reply.Err?
    ensures r.refined.Some? ==>
              || r.refined.value == Sentinel
              || (r.refined.value == Trim(reply.value) && 0 < Utf16Length(r.refined.value) < ReplyLimit)
    ensures r.refined.Some? ==> reply.Ok? && r.refined.value == AcceptReply(reply.value)
  {
    if labels.None? || |labels.value| == 0 then RefineRun(None, None)
    else
      var prompt := Prompt(labels.value);
      match reply
      case Err(_) => RefineRun(Some(prompt), None)
      case Ok(text) => RefineRun(Some(prompt), Some(AcceptReply(text)))
  }

  /** Whatever happens, the answer is `null`, the sentinel, or a non-empty
      label of fewer than 50 characters with no white space at either end. */
  lemma RefinedLabelShape(labels: Option<seq<string>>, reply: Result<string, string>)
    ensures var l := GetRefinedObjectLabel(labels, reply).refined;
            || l.None?
            || l == Some(Sentinel)
            || (0 < |l.value| < ReplyLimit && !IsWhiteSpace(l.value[0]) && !IsWhiteSpace(l.value[|l.value| - 1]))
  {
  }
}
