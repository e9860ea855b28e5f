/** The Google Text-to-Speech wrapper of lib/googleTTS.ts: the request is
    skipped for blank text, and only an answer carrying audio content is
    passed on. The HTTP request is a parameter: the content it returned,
    or `None` for any failure. */
module Tts {
  import opened Base
  import opened Text

  /** The guard `!text || text.trim().length === 0` of `fetchAudioFromText`:
      the text is empty or all white space. */
  function BlankText(text: string): (blank: bool)
    ensures blank <==> IsBlank(text)
  {
    text == "" || Trim(text) == ""
  }

  /** `fetchAudioFromText(text)` where the synthesis service answered
      `reply` (`None` for any failure): no request and `null` for blank
      text, and `null` unless the answer carries audio. */
  function FetchAudioFromText(text: string, reply: Option<string>): (audio: Option<string>)
    ensures audio.Some? ==> !IsBlank(text) && audio == reply && audio.value != ""
    ensures !IsBlank(text) && Truthy(reply) ==> audio == reply
  {
    if BlankText(text) then None
    else if Truthy(reply) then reply
    else None
  }
}
