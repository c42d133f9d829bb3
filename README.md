# Chat core of a page-assistant browser extension, modelled in Dafny

The extension injects a chat sidebar into web pages. The sidebar gathers the page's text and sends the user's question to a background script, which dispatches it to an LLM provider and answers with a single string. This project models six pieces of that system:

- **Background dispatch** (`background.dfy`, module `Background`). The runtime message listener answers the wake-up probe. For a `chat_message` it resolves the provider and model and answers offline mode with a fixed placeholder. It routes `gemini` to `runGemini` and `openai` to the mock `runOpenAI`. Any other provider gets a fixed "not configured" string. Both runners check the stored API key first. The listener is a pure function of the message, a snapshot of sync storage, and what awaiting the Gemini client yields.
- **Gemini client** (`gemini_client.dfy`, module `GeminiClient`). Covers the empty-prompt guard, the default model, the empty-response fallback, and how `chat` turns an exception into an `"Error: ..."` string. The SDK call is a function parameter from request to outcome.
- **Chat store** (`chat_store.dfy`, module `ChatStorage`). The `ChatStore` class holds the local storage area and the sync entry `currentChatListId`. Its method `AddMessageInStorage` appends one user/assistant exchange to every chat with the given id. If no chat has that id, it creates one and makes it current. Each `Date.now()` reading is `clock(n)`, the n-th reading of the call.
- **Page-content extraction** (`extract_content.dfy`, module `ExtractContent`). It keeps visible, significant text blocks in document order. It then accumulates them, each followed by a blank line, until the next block would pass 5000 characters.
- **Options page** (`options.dfy`, module `Options`). Covers the model lists, the default settings, the "truthy stored value wins" load merge, the single-field updater, the active-provider setter, and the flattened save. The `OptionsPage` class holds the page's state.
- **Sidebar** (`sidebar.dfy`, module `Sidebar`). The `SidebarState` class covers the resize clamp, the provider/model/URL precedence on mount, and the send guard. It also covers the appended messages, the prompt template, the request sent, and the reply callback.

Shared pieces: `js_values.dfy` (module `JsValues`) holds JavaScript truthiness, `||`, `String.trim`, `substring` and the decimal rendering of a number. `sync_storage.dfy` (module `SyncStorage`) holds the sync storage snapshot that the background script, options page and sidebar all read.

The model follows the code as written. Three behaviours of the code as written that are easy to miss:

- The listener destructures `currentProvider` and `currentModel`. The sidebar sends `provider` and `model`. So every sidebar request resolves to `gemini` with `gemini-1.5-flash`, whatever the user selected, and offline requests get the placeholder for that model (`Sidebar.SidebarRequestsResolveToGemini`).
- Offline mode does not reach a local model server. It has no 30-second timeout and stores nothing: background.ts answers a fixed placeholder.
- The Gemini client's empty-response text is "No response from Gemini model". The background's own "No response." fallback can never fire with the real client, because `chat` never returns the empty string (`Background.RealClientAnswersVerbatim`).

JavaScript template literals turn the source file's CRLF line ends into `\n`, so the sidebar's prompt constant uses `\n`.

## Model

| member | source | states |
|---|---|---|
| `JsValues.Trim` | src/content/utils/extractContent.ts:25 | `trim()` never lengthens the string, and its result neither starts nor ends with a whitespace or line-terminator character |
| `JsValues.TrimSlices` | src/content/utils/extractContent.ts:25 | what `trim()` keeps is a contiguous slice of the string: everything before it and everything after it is whitespace |
| `JsValues.TrimEmptyIffAllWhitespace` | src/components/Sidebar.tsx:141 | a string trims to "" exactly when it is all whitespace (both directions), which is what the `!input.trim()` guard tests |
| `JsValues.Decimal` | src/background/utils/addMessageInStorage.ts:21 | the `${n}` rendering of a clock reading is a non-empty string of decimal digits |
| `JsValues.DecimalRoundTrip` | src/background/utils/addMessageInStorage.ts:21 | the rendering denotes exactly `n` and has no leading zero |
| `JsValues.Prefix` | src/background/background.ts:103 | `substring(0, n)` is a prefix of the string of length min(n, length) |
| `GeminiClient.Client.Request` | src/lib/llm/GeminiClient.ts:19-22 | the SDK is asked with the client's key and the prompt, and with the client's model, or "gemini-1.5-flash-001" when that is empty; the model sent is never empty |
| `GeminiClient.Client.Main` | src/lib/llm/GeminiClient.ts:10-25 | an empty prompt returns the fixed error; otherwise a non-empty SDK text is returned verbatim, an empty or absent one becomes "No response from Gemini model", and an SDK exception propagates; a returned value is never empty |
| `GeminiClient.Client.Chat` | src/lib/llm/GeminiClient.ts:27-37 | returns `main`'s value unchanged when it returns, and "Error: " plus the message (or "Failed to get response") when it throws; the result is never the empty string |
| `GeminiClient.EmptyPromptNeverReachesSdk` | src/lib/llm/GeminiClient.ts:10-14 | for an empty prompt the answer is the fixed error whatever the SDK would do, so the SDK is not consulted |
| `GeminiClient.ChatAnswerKinds` | src/lib/llm/GeminiClient.ts:10-37 | every answer of `chat` is the empty-prompt error, the no-response text, an "Error: " string, or the SDK's own text for the request built from the prompt |
| `Background.ResolvedProvider` | src/background/background.ts:16-17 | the provider is a truthy `currentProvider`, else "gemini"; never empty |
| `Background.ResolvedModel` | src/background/background.ts:18-20 | the model is a truthy `currentModel`, else "gemini-1.5-flash" for gemini and "default-model" otherwise; never empty |
| `Background.RunGemini` | src/background/background.ts:54-86 | a missing or empty stored key gives the fixed missing-key error; otherwise the client gets the trimmed key and the model (falling back to "gemini-1.5-flash-001"), a non-empty answer is passed on, an empty one becomes "No response.", and an exception becomes "Error: Gemini Request Failed. " plus its message; never empty |
| `Background.RunOpenAI` | src/background/background.ts:88-107 | a missing or empty stored key gives the fixed OpenAI error; otherwise the mock answer naming the model (or "default") and the first min(20, length) prompt characters; never empty |
| `Background.DispatchChat` | src/background/background.ts:15-47 | offline mode answers the placeholder plus the resolved model whatever the provider; online, gemini and openai go to their runners with the prompt and resolved model, and any other provider gets "Provider <p> is not configured in background."; every answer is non-empty |
| `Background.RealChat` | src/background/background.ts:74-79 | whenever the SDK call settles, awaiting the real client's `chat` returns (never throws) a non-empty string |
| `Background.OnMessage` | src/background/background.ts:9-50 | exactly the wake-up type gets the status "Background script is awake!", exactly a chat message gets one response (the dispatch result), and any other type gets no reply; the chat response is sent whenever the provider call settles |
| `Background.UnknownProviderCallsNoRunner` | src/background/background.ts:42-46 | for an unknown provider the reply is the same whatever is stored and whatever the client would do, so no runner or client is involved |
| `Background.MissingGeminiKeyBuildsNoClient` | src/background/background.ts:60-67 | with no usable Gemini key the answer is the fixed error whatever the client would do, so no client is built |
| `Background.ListenerNeverUsesGeminiFallbackModel` | src/background/background.ts:69-77 | the model the listener passes is never empty, so neither runGemini's nor the client's "gemini-1.5-flash-001" fallback is used on that path |
| `Background.RealClientAnswersVerbatim` | src/background/background.ts:74-83 | with the real Gemini client, runGemini with a key answers exactly what the client's `chat` answers: the "No response." and "Request Failed" branches are never taken |
| `ChatStorage.MessageId` | src/background/utils/addMessageInStorage.ts:21 | a message id is "msg-" followed by decimal digits |
| `ChatStorage.MessageIdInjective` | src/background/utils/addMessageInStorage.ts:21 | two ids are equal exactly when their clock readings are equal |
| `ChatStorage.Exchange` | src/background/utils/addMessageInStorage.ts:18-31 | an exchange is a user message with the prompt, then an assistant message with the response; the ids are `msg-` plus the first reading and `msg-` plus the third reading plus one, the timestamps the second reading and the fourth reading plus one |
| `ChatStorage.ExchangeIdsDiffer` | src/background/utils/addMessageInStorage.ts:21-27 | with a clock that never goes backwards, the user and assistant messages of one exchange get different ids |
| `ChatStorage.AssistantAfterUser` | src/background/utils/addMessageInStorage.ts:24-30 | with a clock that never goes backwards, the assistant message's timestamp is strictly greater than the user message's |
| `ChatStorage.MatchCountPositive` | src/background/utils/addMessageInStorage.ts:14-17 | the `chatFound` flag ends true exactly when some chat has the id |
| `ChatStorage.AppendToMatches` | src/background/utils/addMessageInStorage.ts:15-39 | the mapped list has as many chats as the stored one |
| `ChatStorage.AppendToMatchesAt` | src/background/utils/addMessageInStorage.ts:15-39 | every chat with the id, not only the first, keeps its other fields and its old messages as a prefix and gains exactly one exchange; every other chat is unchanged, in the same position |
| `ChatStorage.NewChat` | src/background/utils/addMessageInStorage.ts:41-60 | a created chat has the id, the name "Chat <id>", and the one exchange as its messages |
| `ChatStorage.AddedExchange` | src/background/utils/addMessageInStorage.ts:15-71 | the written list has as many chats as before when some chat has the id, and one more otherwise |
| `ChatStorage.AddedExchangeHasChat` | src/background/utils/addMessageInStorage.ts:15-71 | after an append some chat has the id, so a second append with the same id extends it instead of creating another |
| `ChatStorage.AddedExchangeShape` | src/background/utils/addMessageInStorage.ts:41-60 | when a chat has the id the number of chats is unchanged; otherwise the written list is the old list plus the new chat at the end |
| `ChatStorage.FirstExchangeCreatesChat` | src/background/utils/addMessageInStorage.ts:41-60 | on an empty store exactly one chat with the id is created, holding [user prompt, assistant response] |
| `ChatStorage.TwoExchangesKeepCallOrder` | src/background/utils/addMessageInStorage.ts:9-73 | two appends on the same id from an empty store leave one chat with four messages in call order |
| `ChatStorage.ChatStore.AddMessageInStorage` | src/background/utils/addMessageInStorage.ts:9-73 | a missing stored list reads as empty; the whole updated list is written under the storage key in one write and nothing else in the local area changes; `currentChatListId` becomes the id only when a chat was created and is untouched otherwise |
| `ExtractContent.KeptBlocks` | src/content/utils/extractContent.ts:11-31 | every kept block has between 40 and 600 characters and there are no more blocks than elements |
| `ExtractContent.KeptBlocksAppend` | src/content/utils/extractContent.ts:11-31 | the blocks of two consecutive stretches of the page are those of the first followed by those of the second, so document order is kept |
| `ExtractContent.DroppedElementContributesNothing` | src/content/utils/extractContent.ts:13-28 | a hidden element, one inside nav/footer/header/aside, or one whose trimmed text is shorter than 40 or longer than 600 contributes nothing wherever it stands |
| `ExtractContent.CollectBlocks` | src/content/utils/extractContent.ts:9-31 | the pushed blocks are exactly the trimmed texts of the kept elements, in order |
| `ExtractContent.CapContent` | src/content/utils/extractContent.ts:33-40 | the content is the prefix of the blocks, each followed by "\n\n", that ends at the first block that does not fit in 5000 characters, so no later block is added; it is at most 5002 characters long and non-empty when the first block fits |
| `ExtractContent.ExtractPageContentSafe` | src/content/utils/extractContent.ts:1-50 | title, URL and domain are passed through; the content is the capped join of the kept blocks, at most 5002 characters, and non-empty when any block is kept |
| `Options.ModelOptions` | src/options/options.tsx:11-17 | every provider offers at least one model, no model name is empty, and no model is listed twice |
| `Options.DefaultSettings` | src/options/options.tsx:11-34 | the active provider is "openai", every key is empty, the Ollama URL is the local default, every record has exactly its provider's fields, and each default model is in that provider's model list |
| `Options.DefaultModels` | src/options/options.tsx:25-34 | each default model is the first entry of its provider's list: "gpt-4o", "gemini-1.5-flash", "deepseek-chat", "claude-3-5-sonnet-20240620" and "llama3" |
| `Options.MergedRecord` | src/options/options.tsx:55-76 | on load each of a provider's fields takes the stored value only when it is truthy and keeps the previous value otherwise; no other field survives |
| `Options.Merged` | src/options/options.tsx:51-77 | the active provider becomes a truthy stored `provider`, else stays; every provider record is merged field by field |
| `Options.MergedKeepsShape` | src/options/options.tsx:51-77 | loading into well-shaped settings (each record with exactly its provider's fields) keeps them well shaped |
| `Options.WithProviderSetting` | src/options/options.tsx:108-119 | exactly field `key` of provider `p` becomes `value`; its other fields, the other providers and the active provider are unchanged |
| `Options.WithProviderSettingKeepsShape` | src/options/options.tsx:108-119 | updating one of a provider's own fields keeps the settings well shaped |
| `Options.WithActiveProvider` | src/options/options.tsx:121-123 | only the active provider changes |
| `Options.Saved` | src/options/options.tsx:93-101 | the save writes `provider` := active provider and the five provider records verbatim, and leaves the sidebar's entries as they were |
| `Options.LoadAfterSaveRecord` | src/options/options.tsx:51-101 | one provider record survives a save followed by a load into the initial state |
| `Options.LoadAfterSave` | src/options/options.tsx:51-101 | loading what the save wrote into the initial state restores the saved settings whenever the active provider and every model and URL are non-empty |
| `Options.OptionsPage.constructor` | src/options/options.tsx:20-34 | the page starts with the default settings and an empty status |
| `Options.OptionsPage.Load` | src/options/options.tsx:51-77 | the stored values are merged into the current settings |
| `Options.OptionsPage.UpdateProviderSetting` | src/options/options.tsx:108-119 | the settings become the single-field update of the old ones |
| `Options.OptionsPage.SetProvider` | src/options/options.tsx:121-123 | the settings become the old ones with the new active provider |
| `Options.OptionsPage.HandleSave` | src/options/options.tsx:93-105 | the returned sync area is the flattened save of the current settings, and the status reports success |
| `Sidebar.PromptFor` | src/components/Sidebar.tsx:158-185 | when extraction threw, the prompt is the raw question, unchanged |
| `Sidebar.PromptFraming` | src/components/Sidebar.tsx:164-181 | with a page, the prompt starts with the fixed preamble and "User Question: " plus the question, and ends with the page content and the template's closing line |
| `Sidebar.ChatEnvelope` | src/components/Sidebar.tsx:189-195 | the chat message carries the prompt, the mode, and the selected provider, model and Ollama URL under `provider`, `model` and `ollamaUrl`; it has no `currentProvider` or `currentModel` field; its mode reads "offline" exactly in offline mode |
| `Sidebar.SidebarRequestsResolveToGemini` | src/components/Sidebar.tsx:189-196 | whatever the sidebar selected, the background resolves its request to gemini with "gemini-1.5-flash": offline it answers the placeholder for that model, online it runs Gemini with the prompt |
| `Sidebar.SidebarState.constructor` | src/components/Sidebar.tsx:30-49 | the initial state: right side, width 400, the greeting message, empty input, online, "openai", "gpt-4o", the local Ollama URL; the prompt preamble is the template's fixed text |
| `Sidebar.SidebarState.HandleMouseMove` | src/components/Sidebar.tsx:94-109 | while resizing, the candidate width is innerWidth − clientX on the right and clientX on the left, and the new width is that value clamped to [300, 800]; otherwise the width is unchanged |
| `Sidebar.SidebarState.SyncFromStorage` | src/components/Sidebar.tsx:67-85 | a truthy stored `currentProvider` wins over `provider`, and with neither the provider stays; the model and the Ollama URL are replaced only by truthy stored values |
| `Sidebar.SidebarState.HandleSend` | src/components/Sidebar.tsx:140-196 | an empty or whitespace-only input (the `!input.trim()` test) changes nothing and sends nothing; otherwise exactly one user message with the untrimmed input is appended at the end, the input is cleared, loading is set, and the chat message with the built prompt and the current provider, model, mode and URL is sent |
| `Sidebar.SidebarState.OnResponse` | src/components/Sidebar.tsx:196-203 | one assistant message with the response, or "No response received." when it is empty, is appended, and loading ends |

## Left out

- The `create_new_chat_list` message and a separate "set active conversation" operation are not part of this model: background.ts handles neither. `currentChatListId` is only written by `AddMessageInStorage`.
- background.ts has no local-model path (no Ollama client with a 30-second timeout, and no storing of the exchange after an offline answer). `src/lib/llm/OllamaClient.ts` and `src/lib/llm/OpenAiClient.ts` are placeholder stubs that the background script does not import.
- `src/lib/llm/LLMClient.ts` and `src/types/chat.ts` are type declarations only. `chat.ts` describes chats with `title` and `createdAt`, but the store writes `name` and message ids. The model follows the store.
- The `@google/genai` SDK call is a function parameter from request to outcome. `chrome.storage` reads are a snapshot parameter, and writes are returned values or class fields. Message passing, Promises and callbacks become function inputs and outputs. The listener's `return true`, which keeps the reply channel open, is not modelled.
- Concurrency: each storage read-modify-write is one atomic method. Races between concurrent appends (last write wins) are not modelled.
- The DOM: choosing the root (`article`, `main`, `[role="main"]`, `body`), `querySelectorAll`, `getComputedStyle` and `closest`. Each candidate element is a record of its text, display, visibility, and whether it lies inside a nav/footer/header/aside.
- String lengths: JavaScript counts UTF-16 code units, and the model counts Unicode scalar values. So the 40/600/5000 bounds and `substring(0, 20)` agree with the source only for text without characters outside the Basic Multilingual Plane.
- Non-string stored values: API keys, ids and stored fields are strings. A truthy non-string key would make `substring`/`trim` throw inside runGemini's `try`. The model reaches that branch only through a client outcome that throws.
- Thrown values are error objects with a message (the empty string for none). A thrown `null` or `undefined` would make `chat`'s own catch throw, and that is not modelled.
- A chat message without a `prompt` field, a stored chat without a `messages` list, and a stored chat list that is not an array are not modelled.
- Mouse coordinates are integers, whereas `clientX` can be fractional.
- Background.RealChat, Background.OnMessage: the SDK call is assumed to settle. The online path has no timeout, so a request that never settles gets no reply at all; the model does not represent that outcome.
- The effect at src/components/Sidebar.tsx:87-90 writes the sidebar's current provider and model to `chrome.storage.sync` on every change. It is not modelled: the sidebar's load reads `currentProvider` and `currentModel` as whatever the storage area holds, and nothing in the model puts them there.
- UI only: theme handling through `localStorage` and `matchMedia`, tabs, side switching, the settings panel, mouse-listener registration, clearing the status line after 3 seconds, textarea resizing, `closeSidebar`, logging. The popup, the content script's messaging, mounting the sidebar, `src/lib/utils.ts` and `vite.config.ts` are also left out.
- A stored chat keeps its id, name and messages plus two optional page fields (`pageUrl`, `domain`). The source's `{...chat, messages}` spread keeps every other field too, which this model does not represent.
- Message ids are `msg-` plus the decimal clock reading. Different readings give different ids (`ChatStorage.MessageIdInjective`), but uniqueness across calls is not stated: two calls in the same millisecond share ids in the source too.
- Sidebar.PromptFor: its own contract states only the no-page case. `Sidebar.PromptFraming` states the templated prompt's start (preamble, "User Question: ", the question) and its end (the page content and the closing line). The title, URL and domain lines in between are fixed by its body alone.
- Sidebar.SidebarState.HandleSend: the `!input.trim()` guard is written as `AllWhitespace(input)`. `JsValues.TrimEmptyIffAllWhitespace` proves the two tests agree on every string.
