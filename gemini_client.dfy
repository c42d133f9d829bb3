// The Gemini client (src/lib/llm/GeminiClient.ts): guards and fallbacks
// around one call of the Google GenAI SDK, and the mapping of exceptions to
// response strings. The SDK call itself is a parameter: a function from the
// request the client sends to the outcome of that request.

module GeminiClient {
  import opened JsValues

  const DefaultModel := "gemini-1.5-flash-001"
  const EmptyPromptError := "Error: Prompt cannot be empty"
  const NoResponseText := "No response from Gemini model"
  const FailedToGetResponse := "Failed to get response"

  /** What `generateContent` is asked for: the client's key, the model and the prompt. */
  datatype GenerateRequest = GenerateRequest(apiKey: string, model: string, contents: string)

  /** What the SDK call does: it returns a response whose `text` may be absent,
      or it throws an error with a message (the empty string for none). */
  datatype SdkOutcome = Generated(text: Option<string>) | SdkThrew(message: string)

  /** How an awaited call settles: it returns a string, or it throws an error
      with a message (the empty string for none). */
  datatype Completion = Returned(value: string) | Threw(message: string)

  /** A client; both fields are fixed by the constructor. */
  datatype Client = Client(apiKey: string, model: string)
  {
    /** The request `main` sends for a non-empty prompt: the model falls back
        to the default when the client's model is empty. */
    function Request(prompt: string): (req: GenerateRequest)
      ensures req.apiKey == apiKey && req.contents == prompt
      ensures req.model != ""
      ensures model != "" ==> req.model == model
      ensures model == "" ==> req.model == DefaultModel
    {
      GenerateRequest(apiKey, OrElse(model, DefaultModel), prompt)
    }

    /** `main`: rejects the empty prompt without calling the SDK; otherwise
        returns the SDK's text verbatim when it is non-empty, a fixed text when
        it is empty or absent, and lets the SDK's exception through. */
    function Main(prompt: string, sdk: GenerateRequest -> SdkOutcome): (c: Completion)
      ensures prompt == "" ==> c == Returned(EmptyPromptError)
      ensures prompt != "" && sdk(Request(prompt)).SdkThrew? ==>
                c == Threw(sdk(Request(prompt)).message)
      ensures prompt != "" && sdk(Request(prompt)).Generated? ==>
                c == Returned(Or(sdk(Request(prompt)).text, NoResponseText))
      ensures c.Returned? ==> c.value != ""
    {
      if |prompt| == 0 then
        Returned(EmptyPromptError)
      else
        match sdk(Request(prompt))
        case Generated(text) => Returned(Or(text, NoResponseText))
        case SdkThrew(message) => Threw(message)
    }

    /** `chat`: `main`'s value when it returns, and an "Error: ..." string when
        it throws, so `chat` itself always returns, and never the empty string. */
    function Chat(prompt: string, sdk: GenerateRequest -> SdkOutcome): (r: string)
      ensures Main(prompt, sdk).Returned? ==> r == Main(prompt, sdk).value
      ensures Main(prompt, sdk).Threw? ==>
                r == "Error: " + OrElse(Main(prompt, sdk).message, FailedToGetResponse)
      ensures r != ""
    {
      match Main(prompt, sdk)
      case Returned(response) => response
      case Threw(message) => "Error: " + OrElse(message, FailedToGetResponse)
    }
  }

  /** `chat` does not call the SDK for an empty prompt: whatever the SDK would
      do, the answer is the fixed empty-prompt error. */
  lemma EmptyPromptNeverReachesSdk(client: Client, sdk1: GenerateRequest -> SdkOutcome,
                                   sdk2: GenerateRequest -> SdkOutcome)
    ensures client.Chat("", sdk1) == client.Chat("", sdk2) == EmptyPromptError
  {
  }

  /** Every answer of `chat` is one of: the empty-prompt error, the SDK's own
      non-empty text, the no-response text, or an "Error: " string. */
  lemma ChatAnswerKinds(client: Client, prompt: string, sdk: GenerateRequest -> SdkOutcome)
    ensures var r := client.Chat(prompt, sdk);
            r == EmptyPromptError || r == NoResponseText || "Error: " <= r ||
            (prompt != "" && sdk(client.Request(prompt)) == Generated(Some(r)))
  {
  }
}
