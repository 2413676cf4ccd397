/**
 * The generative-reply part of app.py: start-up of the Gemini client and
 * `generate_calmind_response`, with its two fixed fallbacks and the system
 * prompt that carries the detected label.
 *
 * The Gemini service is not part of this model: it is an oracle `generate`
 * from the request that would be sent to the reply text, `None` standing
 * for a call that raised.
 */
module CalmindResponse {

  import opened Wrappers

  const ModelName := "gemini-2.5-flash"
  const Temperature: real := 0.7
  const UnavailableReply := "The AI service is unavailable due to a missing or invalid API key."
  const ErrorReply := "Sorry, the AI service encountered an error while generating a reply."

  /** The fixed text around the label in the system prompt. */
  const PromptHead := "You are 'Calmind', a supportive and empathetic AI assistant. "
    + "Your goal is to provide a brief, calming, and constructive response. "
    + "The user's emotional state is detected as: "
  const PromptTail := ". Use this context to reply."

  /** Client start-up: a missing or empty `GEMINI_API_KEY` raises, and so may
      the client constructor (`constructs` false); either way the client is
      left absent. The result says whether a client exists. */
  function InitClient(apiKey: Option<string>, constructs: bool): (ready: bool)
    ensures ready <==> apiKey.Some? && apiKey.value != [] && constructs
  {
    match apiKey
    case None => false
    case Some(key) => key != [] && constructs
  }

  /** The system instruction, with the label substituted into it. */
  function SystemPrompt(emotion: string): (p: string)
    ensures PromptHead <= p
    ensures |p| == |PromptHead| + |emotion| + |PromptTail|
  {
    PromptHead + emotion + PromptTail
  }

  /** Reads the label back out of a system prompt; the partner of
      `SystemPrompt`. */
  function EmotionInPrompt(p: string): Option<string>
  {
    if |p| >= |PromptHead| + |PromptTail| && PromptHead <= p && p[|p| - |PromptTail|..] == PromptTail
    then Some(p[|PromptHead|..|p| - |PromptTail|])
    else None
  }

  ghost predicate Contains(s: string, sub: string)
  {
    exists i :: 0 <= i <= |s| && sub <= s[i..]
  }

  /** The label can be read back from the prompt it was put into, so two
      labels never share a prompt. */
  lemma PromptRoundTrip(emotion: string)
    ensures EmotionInPrompt(SystemPrompt(emotion)) == Some(emotion)
  {
  }

  /** The prompt sent to the model contains the detected label. */
  lemma PromptEmbedsEmotion(emotion: string)
    ensures Contains(SystemPrompt(emotion), emotion)
  {
    var p := SystemPrompt(emotion);
    assert emotion <= p[|PromptHead|..];
  }

  /** The single `generate_content` call: model, user text as contents, and
      a config of system instruction and temperature. */
  datatype GenerateRequest = GenerateRequest(model: string, contents: string,
                                             systemInstruction: string, temperature: real)

  /** The reply returned, and the call that was made to get it, if any. */
  datatype Reply = Reply(text: string, call: Option<GenerateRequest>)

  /** `generate_calmind_response(emotion, user_text)`. */
  function GenerateCalmindResponse(clientReady: bool, generate: GenerateRequest -> Option<string>,
                                   emotion: string, userText: string): (r: Reply)
    ensures !clientReady ==> r.text == UnavailableReply && r.call.None?
    ensures clientReady ==> r.call.Some?
    ensures clientReady ==>
      && r.call.value.model == "gemini-2.5-flash"
      && r.call.value.temperature == 0.7
      && r.call.value.contents == userText
      && EmotionInPrompt(r.call.value.systemInstruction) == Some(emotion)
    ensures clientReady && generate(r.call.value).None? ==>
      r.text == "Sorry, the AI service encountered an error while generating a reply."
    ensures clientReady && generate(r.call.value).Some? ==> r.text == generate(r.call.value).value
  {
    if !clientReady then Reply(UnavailableReply, None)
    else
      var request := GenerateRequest(ModelName, userText, SystemPrompt(emotion), Temperature);
      match generate(request)
      case Some(text) => Reply(text, Some(request))
      case None => Reply(ErrorReply, Some(request))
  }

  /** The fallbacks are distinct from each other, so the two failure modes
      can be told apart by the reply text. */
  lemma FallbacksDistinct()
    ensures UnavailableReply != ErrorReply
  {
  }
}
