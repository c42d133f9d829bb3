// The background script's message listener (src/background/background.ts):
// the wake-up probe, and the `chat_message` dispatch to runGemini/runOpenAI.
// The listener is a pure function of the message, the sync-storage snapshot
// the runners read, and what awaiting the Gemini client's `chat` yields.

module Background {
  import opened JsValues
  import opened SyncStorage
  import GeminiClient

  const WakeUpType := "BACKGROUND_SCRIPT_WAKE_UP"
  const ChatMessageType := "chat_message"
  const AwakeStatus := "Background script is awake!"
  const DefaultProvider := "gemini"
  const DefaultGeminiModel := "gemini-1.5-flash"
  const DefaultOtherModel := "default-model"
  const OfflinePrefix := "Offline mode (Ollama) not connected to background yet. Model: "
  const GeminiKeyMissing := "Error: Gemini API Key is missing. Please set it in Options."
  const GeminiNoResponse := "No response."
  const GeminiFailedPrefix := "Error: Gemini Request Failed. "
  const OpenAIKeyMissing := "Error: OpenAI API Key is missing."

  /** A runtime message as the listener sees it: its `type` and the fields the
      chat branch destructures (`currentProvider`, `mode`, `currentModel`,
      `prompt`), plus the fields the sidebar actually sends (`provider`,
      `model`, `ollamaUrl`), which the listener never reads. */
  datatype Envelope = Envelope(
    msgType: string,
    provider: Option<string>,
    currentProvider: Option<string>,
    mode: Option<string>,
    model: Option<string>,
    currentModel: Option<string>,
    prompt: string,
    ollamaUrl: Option<string>)

  /** What `sendResponse` is called with, if anything. */
  datatype Reply = StatusReply(status: string) | ResponseReply(response: string) | NoReply

  /** What awaiting `new GeminiClient(key, model).chat(prompt)` yields. */
  type GeminiChat = (GeminiClient.Client, string) -> GeminiClient.Completion

  /** `currentProvider || "gemini"`. */
  function ResolvedProvider(msg: Envelope): (p: string)
    ensures p != ""
    ensures Truthy(msg.currentProvider) ==> p == msg.currentProvider.value
    ensures !Truthy(msg.currentProvider) ==> p == DefaultProvider
  {
    Or(msg.currentProvider, DefaultProvider)
  }

  /** `currentModel || (provider === "gemini" ? "gemini-1.5-flash" : "default-model")`:
      never empty. */
  function ResolvedModel(msg: Envelope): (m: string)
    ensures m != ""
    ensures Truthy(msg.currentModel) ==> m == msg.currentModel.value
    ensures !Truthy(msg.currentModel) && ResolvedProvider(msg) == DefaultProvider ==>
              m == DefaultGeminiModel
    ensures !Truthy(msg.currentModel) && ResolvedProvider(msg) != DefaultProvider ==>
              m == DefaultOtherModel
  {
    Or(msg.currentModel,
       if ResolvedProvider(msg) == DefaultProvider then DefaultGeminiModel else DefaultOtherModel)
  }

  /** The stored Gemini key: `(result.gemini || {}).apiKey`. */
  function GeminiKey(sync: SyncArea): Option<string>
  {
    FieldOf(sync.gemini, "apiKey")
  }

  /** The stored OpenAI key: `(result.openai || {}).apiKey`. */
  function OpenAIKey(sync: SyncArea): Option<string>
  {
    FieldOf(sync.openai, "apiKey")
  }

  /** runGemini: a missing or empty key gives a fixed error and no client is
      built; otherwise the client gets the trimmed key and the requested model
      (or the client default when that is empty), its answer is passed on
      unless empty, and an exception becomes a "Request Failed" string. */
  function RunGemini(prompt: string, dynamicModel: string, sync: SyncArea, chat: GeminiChat): (r: string)
    ensures !Truthy(GeminiKey(sync)) ==> r == GeminiKeyMissing
    ensures Truthy(GeminiKey(sync)) ==>
              var client := GeminiClient.Client(Trim(GeminiKey(sync).value),
                                                OrElse(dynamicModel, GeminiClient.DefaultModel));
              match chat(client, prompt)
              case Returned(response) => r == OrElse(response, GeminiNoResponse)
              case Threw(message) => r == GeminiFailedPrefix + message
    ensures r != ""
  {
    var key := GeminiKey(sync);
    if !Truthy(key) then
      GeminiKeyMissing
    else
      var targetModel := OrElse(dynamicModel, GeminiClient.DefaultModel);
      match chat(GeminiClient.Client(Trim(key.value), targetModel), prompt)
      case Returned(response) => OrElse(response, GeminiNoResponse)
      case Threw(message) => GeminiFailedPrefix + message
  }

  /** runOpenAI: a missing or empty key gives a fixed error; otherwise the
      mock answer naming the model and quoting the first 20 prompt characters. */
  function RunOpenAI(prompt: string, dynamicModel: string, sync: SyncArea): (r: string)
    ensures !Truthy(OpenAIKey(sync)) ==> r == OpenAIKeyMissing
    ensures Truthy(OpenAIKey(sync)) ==>
              r == "[Mock OpenAI] Response using model: " + OrElse(dynamicModel, "default") +
                   " (Prompt: " + Prefix(prompt, 20) + "...)"
    ensures r != ""
  {
    if !Truthy(OpenAIKey(sync)) then
      OpenAIKeyMissing
    else
      "[Mock OpenAI] Response using model: " + OrElse(dynamicModel, "default") +
      " (Prompt: " + Prefix(prompt, 20) + "...)"
  }

  /** The `chat_message` branch: the offline placeholder whatever the provider,
      then routing on the resolved provider. Every branch answers with a
      non-empty string. */
  function DispatchChat(msg: Envelope, sync: SyncArea, chat: GeminiChat): (r: string)
    ensures msg.mode == Some("offline") ==> r == OfflinePrefix + ResolvedModel(msg)
    ensures msg.mode != Some("offline") && ResolvedProvider(msg) == "gemini" ==>
              r == RunGemini(msg.prompt, ResolvedModel(msg), sync, chat)
    ensures msg.mode != Some("offline") && ResolvedProvider(msg) == "openai" ==>
              r == RunOpenAI(msg.prompt, ResolvedModel(msg), sync)
    ensures msg.mode != Some("offline") && ResolvedProvider(msg) !in {"gemini", "openai"} ==>
              r == "Provider " + ResolvedProvider(msg) + " is not configured in background."
    ensures r != ""
  {
    var provider := ResolvedProvider(msg);
    var model := ResolvedModel(msg);
    if msg.mode == Some("offline") then
      OfflinePrefix + model
    else if provider == "gemini" then
      RunGemini(msg.prompt, model, sync, chat)
    else if provider == "openai" then
      RunOpenAI(msg.prompt, model, sync)
    else
      "Provider " + provider + " is not configured in background."
  }

  /** The runtime.onMessage listener: a wake-up probe gets the awake status, a
      chat message gets exactly one response string, anything else no reply. */
  function OnMessage(msg: Envelope, sync: SyncArea, chat: GeminiChat): (reply: Reply)
    ensures msg.msgType == WakeUpType <==> reply == StatusReply(AwakeStatus)
    ensures msg.msgType == ChatMessageType <==> reply.ResponseReply?
    ensures msg.msgType == ChatMessageType ==> reply.response == DispatchChat(msg, sync, chat)
    ensures msg.msgType !in {WakeUpType, ChatMessageType} ==> reply == NoReply
  {
    if msg.msgType == WakeUpType then
      StatusReply(AwakeStatus)
    else if msg.msgType == ChatMessageType then
      ResponseReply(DispatchChat(msg, sync, chat))
    else
      NoReply
  }

  /** The real client: awaiting `chat` always returns, never throws. */
  function RealChat(sdk: GeminiClient.GenerateRequest -> GeminiClient.SdkOutcome): (chat: GeminiChat)
    ensures forall client, prompt :: chat(client, prompt).Returned? && chat(client, prompt).value != ""
  {
    (client: GeminiClient.Client, prompt: string) => GeminiClient.Returned(client.Chat(prompt, sdk))
  }

  /** A provider other than gemini and openai gets the fixed "not configured"
      string whatever is stored and whatever the client would do: no runner is
      called. */
  lemma UnknownProviderCallsNoRunner(msg: Envelope, sync1: SyncArea, sync2: SyncArea,
                                     chat1: GeminiChat, chat2: GeminiChat)
    requires msg.msgType == ChatMessageType && msg.mode != Some("offline")
    requires ResolvedProvider(msg) != "gemini" && ResolvedProvider(msg) != "openai"
    ensures OnMessage(msg, sync1, chat1) == OnMessage(msg, sync2, chat2)
         == ResponseReply("Provider " + msg.currentProvider.value + " is not configured in background.")
  {
  }

  /** A missing Gemini key answers with the fixed error whatever the client
      would do: no client is built. */
  lemma MissingGeminiKeyBuildsNoClient(prompt: string, model: string, sync: SyncArea,
                                       chat1: GeminiChat, chat2: GeminiChat)
    requires !Truthy(GeminiKey(sync))
    ensures RunGemini(prompt, model, sync, chat1) == RunGemini(prompt, model, sync, chat2)
         == GeminiKeyMissing
  {
  }

  /** Reached from the listener, runGemini builds its client with the resolved
      model itself: that model is never empty, so neither runGemini's
      "gemini-1.5-flash-001" fallback nor the client's is ever used. */
  lemma ListenerNeverUsesGeminiFallbackModel(msg: Envelope, prompt: string)
    ensures OrElse(ResolvedModel(msg), GeminiClient.DefaultModel) == ResolvedModel(msg)
    ensures GeminiClient.Client("", ResolvedModel(msg)).Request(prompt).model == ResolvedModel(msg)
  {
  }

  /** With the real client, runGemini with a key answers exactly what the
      client's `chat` answers: the "No response." fallback and the
      "Request Failed" branch are never taken. */
  lemma RealClientAnswersVerbatim(prompt: string, model: string, sync: SyncArea,
                                  sdk: GeminiClient.GenerateRequest -> GeminiClient.SdkOutcome)
    requires Truthy(GeminiKey(sync))
    ensures RunGemini(prompt, model, sync, RealChat(sdk)) ==
            GeminiClient.Client(Trim(GeminiKey(sync).value), OrElse(model, GeminiClient.DefaultModel)).Chat(prompt, sdk)
  {
    var client := GeminiClient.Client(Trim(GeminiKey(sync).value), OrElse(model, GeminiClient.DefaultModel));
    assert RealChat(sdk)(client, prompt) == GeminiClient.Returned(client.Chat(prompt, sdk));
  }
}
