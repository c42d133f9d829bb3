// The sidebar's state transitions (src/components/Sidebar.tsx): the resize
// width clamp, the settings read from storage on mount, and sending a
// question (the guard, the appended messages, the prompt and the request) and
// receiving its answer. The component's state is a class whose fields the
// handlers update.

module Sidebar {
  import opened JsValues
  import opened SyncStorage
  import ExtractContent
  import ChatStorage
  import Background

  const Greeting := "Hi! How can I help you with this page today?"
  const NoResponseReceived := "No response received."
  const MinWidth := 300
  const MaxWidth := 800

  /** The fixed text the sidebar puts before the question in every prompt
      with a page. */
  const PromptPreamble := "\n          You Are An Expert Assistant Embedded In A Webpage whose name is \"ArthPage\" and Your Goal is to Help The User Interact with the Webpage Content in the Best Possible Way.\n          Always Try to use the Webpage Content to answer the user's queries and help them interact with the page. \n          \n          \"ArthPage\" is built by Navnath Kadam and you can check out his work at https://portfolio.ndkdev.me or https://www.ndkdev.me. You can also find the source code of \"ArthPage\" at \"https://github.com/ndk123-web/arthpage\"\n          If the user query is not related to the page content, still try to find a way to relate it to the content and assist the user.\n\n          You Only Need to Answer User's Question Based on The Content of The Webpage and Your General Knowledge. Always Prefer Using The Webpage Content to Answer User Queries.\n\n          "
  const QuestionLabel := "User Question: "
  const TitleLabel := "\n\n          Page Title: "
  const UrlLabel := "\n          Page URL: "
  const DomainLabel := "\n          Domain: "
  const ContentLabel := "\n\n          Page Content:\n          "
  const PromptEnd := "\n        "

  datatype Side = Left | Right
  datatype Mode = Online | Offline

  function ModeName(m: Mode): (name: string)
    ensures name == "offline" <==> m == Offline
  {
    match m
    case Online => "online"
    case Offline => "offline"
  }

  datatype UiMessage = UiMessage(role: ChatStorage.Role, content: string)

  /** A string placed first stays a prefix, and one placed last stays a suffix. */
  lemma Framed(head: string, middle: string, tail: string)
    ensures head <= head + middle + tail
    ensures |tail| <= |head + middle + tail| &&
            (head + middle + tail)[|head + middle + tail| - |tail|..] == tail
  {
    assert (head + middle + tail)[..|head|] == head;
    assert (head + middle + tail)[|head + middle|..] == tail;
  }

  /** The prompt sent for a question: the question alone when the page
      extraction threw (`None`), otherwise the template: the fixed `preamble`,
      "User Question: " and the question, then the page's title, URL, domain
      and content. */
  function PromptFor(preamble: string, question: string,
                     page: Option<ExtractContent.PageContent>): (prompt: string)
    ensures page.None? ==> prompt == question
  {
    match page
    case None => question
    case Some(p) =>
      preamble + QuestionLabel + question +
      (TitleLabel + p.title + UrlLabel + p.url + DomainLabel + p.domain + ContentLabel) +
      (p.content + PromptEnd)
  }

  /** With a page, the prompt starts with the preamble and the labelled
      question and ends with the page content. */
  lemma PromptFraming(preamble: string, question: string, p: ExtractContent.PageContent)
    ensures var prompt := PromptFor(preamble, question, Some(p));
            preamble + QuestionLabel + question <= prompt &&
            |p.content + PromptEnd| <= |prompt| &&
            prompt[|prompt| - |p.content + PromptEnd|..] == p.content + PromptEnd
  {
    Framed(preamble + QuestionLabel + question,
           TitleLabel + p.title + UrlLabel + p.url + DomainLabel + p.domain + ContentLabel,
           p.content + PromptEnd);
  }

  /** The runtime message handleSend sends. It carries `provider` and
      `model`, not the `currentProvider`/`currentModel` the background reads. */
  function ChatEnvelope(provider: string, model: string, mode: Mode, prompt: string,
                        ollamaUrl: string): (env: Background.Envelope)
    ensures env.msgType == Background.ChatMessageType && env.prompt == prompt
    ensures env.provider == Some(provider) && env.model == Some(model) && env.ollamaUrl == Some(ollamaUrl)
    ensures env.currentProvider == None && env.currentModel == None
    ensures env.mode == Some("offline") <==> mode == Offline
  {
    Background.Envelope(Background.ChatMessageType, Some(provider), None, Some(ModeName(mode)),
                        Some(model), None, prompt, Some(ollamaUrl))
  }

  /** Whatever provider and model the sidebar has selected, the background
      resolves its requests to gemini with "gemini-1.5-flash": in offline mode
      it answers the placeholder for that model, online it runs Gemini. */
  lemma SidebarRequestsResolveToGemini(provider: string, model: string, mode: Mode, prompt: string,
                                       ollamaUrl: string, sync: SyncArea, chat: Background.GeminiChat)
    ensures var env := ChatEnvelope(provider, model, mode, prompt, ollamaUrl);
            Background.ResolvedProvider(env) == "gemini" &&
            Background.ResolvedModel(env) == "gemini-1.5-flash" &&
            Background.OnMessage(env, sync, chat) ==
              Background.ResponseReply(
                if mode == Offline then Background.OfflinePrefix + "gemini-1.5-flash"
                else Background.RunGemini(prompt, "gemini-1.5-flash", sync, chat))
  {
  }

  class SidebarState {
    /** The fixed text handleSend puts before the question: the template's
        PromptPreamble. */
    const preamble: string
    var side: Side
    var width: int
    var isResizing: bool
    var messages: seq<UiMessage>
    var input: string
    var loading: bool
    var mode: Mode
    var provider: string
    var model: string
    var ollamaUrl: string

    /** The state on first render. */
    constructor ()
      ensures preamble == PromptPreamble
      ensures side == Right && width == 400 && !isResizing
      ensures messages == [UiMessage(ChatStorage.Assistant, Greeting)] && input == "" && !loading
      ensures mode == Online && provider == "openai" && model == "gpt-4o"
      ensures ollamaUrl == "http://localhost:11434"
    {
      preamble := PromptPreamble;
      side := Right;
      width := 400;
      isResizing := false;
      messages := [UiMessage(ChatStorage.Assistant, Greeting)];
      input := "";
      loading := false;
      mode := Online;
      provider := "openai";
      model := "gpt-4o";
      ollamaUrl := "http://localhost:11434";
    }

    /** handleMouseMove: while resizing, the width follows the pointer (the
        distance from the right edge, or from the left edge) clamped to
        [300, 800]; otherwise nothing changes. */
    method HandleMouseMove(clientX: int, innerWidth: int)
      modifies this`width
      ensures !isResizing ==> width == old(width)
      ensures isResizing ==> MinWidth <= width <= MaxWidth
      ensures isResizing ==>
                var candidate := if side == Right then innerWidth - clientX else clientX;
                (MinWidth <= candidate <= MaxWidth ==> width == candidate) &&
                (candidate < MinWidth ==> width == MinWidth) &&
                (candidate > MaxWidth ==> width == MaxWidth)
    {
      if !isResizing {
        return;
      }
      var newWidth;
      if side == Right {
        newWidth := innerWidth - clientX;
      } else {
        newWidth := clientX;
      }
      if newWidth < MinWidth { newWidth := MinWidth; }
      if newWidth > MaxWidth { newWidth := MaxWidth; }
      width := newWidth;
    }

    /** The mount effect: a stored currentProvider takes precedence over
        provider, and with neither the provider stays; the model and the
        Ollama URL are replaced only by truthy stored values. */
    method SyncFromStorage(stored: SyncArea)
      modifies this`provider, this`model, this`ollamaUrl
      ensures provider == (if Truthy(stored.currentProvider) then stored.currentProvider.value
                           else Or(stored.provider, old(provider)))
      ensures model == Or(stored.currentModel, old(model))
      ensures ollamaUrl == Or(FieldOf(stored.ollama, "url"), old(ollamaUrl))
    {
      if Truthy(stored.currentProvider) {
        provider := stored.currentProvider.value;
      } else if Truthy(stored.provider) {
        provider := stored.provider.value;
      }
      if Truthy(stored.currentModel) {
        model := stored.currentModel.value;
      }
      var url := FieldOf(stored.ollama, "url");
      if Truthy(url) {
        ollamaUrl := url.value;
      }
    }

    /** handleSend: an empty or whitespace-only input does nothing; otherwise
        exactly one user message with the untrimmed input is appended, the
        input is cleared, loading is set, and the chat message is sent with
        the prompt built from the question and the page (`page` is `None`
        when the extraction threw). The source's guard `!input.trim()` is
        written as AllWhitespace, which TrimEmptyIffAllWhitespace shows to be
        the same test. */
    method HandleSend(page: Option<ExtractContent.PageContent>) returns (sent: Option<Background.Envelope>)
      modifies this`messages, this`input, this`loading
      ensures AllWhitespace(old(input)) ==>
                sent == None && messages == old(messages) && input == old(input) && loading == old(loading)
      ensures !AllWhitespace(old(input)) ==>
                messages == old(messages) + [UiMessage(ChatStorage.User, old(input))] && input == "" && loading &&
                sent == Some(ChatEnvelope(provider, model, mode, PromptFor(preamble, old(input), page), ollamaUrl))
    {
      var userQuestion := input;
      if AllWhitespace(userQuestion) {
        return None;
      }
      messages := messages + [UiMessage(ChatStorage.User, userQuestion)];
      input := "";
      loading := true;
      var prompt := PromptFor(preamble, userQuestion, page);
      sent := Some(ChatEnvelope(provider, model, mode, prompt, ollamaUrl));
    }

    /** The reply callback: one assistant message with the response, or a
        fixed text when it is empty, is appended, and loading ends. */
    method OnResponse(response: Option<string>)
      modifies this`messages, this`loading
      ensures messages == old(messages) + [UiMessage(ChatStorage.Assistant, Or(response, NoResponseReceived))]
      ensures messages[|messages| - 1].content != ""
      ensures !loading
    {
      messages := messages + [UiMessage(ChatStorage.Assistant, Or(response, NoResponseReceived))];
      loading := false;
    }
  }
}
