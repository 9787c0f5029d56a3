/** The completion client (`GroqLLM.__call__`): one chat request carrying the
    prompt as a single user message, then the first choice's text, a
    "no response" sentinel, or an error diagnostic. The endpoint itself is a
    parameter. */
module Completion {
  import opened Text

  const DefaultModel := "deepseek-r1-distill-llama-70b"
  const NoResponse := "Error: No response generated"
  const ErrorPrefix := "Error generating response: "

  datatype ChatMessage = ChatMessage(role: string, content: string)

  /** The request sent to the endpoint (the sampling settings are not modelled). */
  datatype ChatRequest = ChatRequest(model: string, messages: seq<ChatMessage>, stream: bool)

  /** What the endpoint gives back: the text of each choice, or the text of
      the exception it raised. */
  datatype CompletionResponse = EndpointError(message: string) | Choices(contents: seq<string>)

  /** The request for a string prompt: the prompt is sent unchanged as the
      only message, from the user, without streaming. */
  function Request(model: string, prompt: string): (req: ChatRequest)
    ensures req.model == model && !req.stream
    ensures |req.messages| == 1
    ensures req.messages[0].role == "user" && req.messages[0].content == prompt
  {
    ChatRequest(model, [ChatMessage("user", prompt)], false)
  }

  /** The prompt a request carries, if it has the shape `Request` builds. */
  function PromptOf(req: ChatRequest): (p: Option<string>)
    ensures p.Some? <==> exists prompt :: req == Request(req.model, prompt)
    ensures p.Some? ==> req == Request(req.model, p.value)
  {
    if |req.messages| == 1 && req.messages[0].role == "user" && !req.stream
    then
      assert req == Request(req.model, req.messages[0].content);
      Some(req.messages[0].content)
    else None
  }

  /** The prompt can be read back from the request: nothing is added, cut or
      rewritten on the way to the endpoint. */
  lemma RequestCarriesPrompt(model: string, prompt: string)
    ensures PromptOf(Request(model, prompt)) == Some(prompt)
    ensures forall other :: Request(model, other) == Request(model, prompt) ==> other == prompt
  {
    forall other | Request(model, other) == Request(model, prompt)
      ensures other == prompt
    {
      assert Request(model, other).messages[0].content == other;
    }
  }

  /** The answer for an endpoint response. */
  function Answer(response: CompletionResponse): (answer: string)
    ensures response.Choices? && response.contents != [] ==> answer == response.contents[0]
    ensures response == Choices([]) ==> answer == "Error: No response generated"
    ensures response.EndpointError? ==> answer == "Error generating response: " + response.message
  {
    match response
    case EndpointError(m) => ErrorPrefix + m
    case Choices(contents) => if contents == [] then NoResponse else contents[0]
  }

  /** `GroqLLM(model)(prompt)` for a string prompt. */
  function Complete(model: string, prompt: string, endpoint: ChatRequest -> CompletionResponse): (answer: string)
    ensures endpoint(Request(model, prompt)).Choices? && endpoint(Request(model, prompt)).contents != [] ==>
      answer == endpoint(Request(model, prompt)).contents[0]
    ensures endpoint(Request(model, prompt)) == Choices([]) ==> answer == NoResponse
    ensures endpoint(Request(model, prompt)).EndpointError? ==>
      answer == ErrorPrefix + endpoint(Request(model, prompt)).message
  {
    Answer(endpoint(Request(model, prompt)))
  }

  /** The two diagnostics are never confused with each other: the error
      message is read back after its prefix, and the sentinel has no such
      prefix. */
  lemma DiagnosticsDistinct(m: string)
    ensures StripPrefix(Answer(EndpointError(m)), ErrorPrefix) == Some(m)
    ensures StripPrefix(Answer(Choices([])), ErrorPrefix) == None
  {
    StartsWithConcat(ErrorPrefix, m);
    assert NoResponse[5] != ErrorPrefix[5];
  }
}
