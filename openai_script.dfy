/** ai_clipboard_openai.py: Ctrl+Win sends the clipboard to an OpenAI-compatible chat model,
    optionally at another base URL, and pastes the answer. */
module OpenAIScript {
  import opened Wrappers
  import opened Text
  import opened Hotkey
  import opened Assistant

  const API_KEY_VARIABLE := "OPENAI_API_KEY"
  const DEFAULT_MODEL := "gpt-3.5-turbo"
  const BEARER_PREFIX := "Bearer "
  const AUTHORIZATION := "Authorization"
  const CONTENT_TYPE := "Content-Type"
  const JSON_MEDIA_TYPE := "application/json"
  const USER_ROLE := "user"

  /** The model: OPENAI_LLM whenever it is set (an empty value included), else the default. */
  function ModelName(openaiLlm: Option<string>): (m: string)
    ensures openaiLlm.None? ==> m == DEFAULT_MODEL
    ensures openaiLlm.Some? ==> m == openaiLlm.value
  {
    GetEnvOr(openaiLlm, DEFAULT_MODEL)
  }

  /** The client's base URL: OPENAI_URL when set and non-empty, else the library's default. */
  function BaseUrl(openaiUrl: Option<string>): (r: Option<string>)
    ensures r.Some? <==> openaiUrl.Some? && openaiUrl.value != ""
    ensures r.Some? ==> r == openaiUrl
  {
    if openaiUrl.Some? && openaiUrl.value != "" then openaiUrl else None
  }

  datatype ChatMessage = ChatMessage(role: string, content: string)

  /** The logged request body (its temperature is left out). */
  datatype ChatRequest = ChatRequest(model: string, messages: seq<ChatMessage>)

  function AuthorizationValue(apiKey: string): string {
    BEARER_PREFIX + apiKey
  }

  /** Reads the key back out of an Authorization header value. */
  function BearerToken(value: string): Option<string> {
    if BEARER_PREFIX <= value then Some(value[|BEARER_PREFIX|..]) else None
  }

  /** The Authorization header carries exactly the key. */
  lemma AuthorizationCarriesKey(apiKey: string)
    ensures BearerToken(AuthorizationValue(apiKey)) == Some(apiKey)
  {
    assert AuthorizationValue(apiKey)[..|BEARER_PREFIX|] == BEARER_PREFIX;
  }

  /** req_body and req_headers, built as the script builds its two dictionaries. */
  method BuildRequest(modelName: string, apiKey: string, prompt: string) returns (body: ChatRequest, headers: map<string, string>)
    ensures body.model == modelName && |body.messages| == 1
    ensures body.messages[0].role == USER_ROLE && body.messages[0].content == prompt
    ensures headers.Keys == {AUTHORIZATION, CONTENT_TYPE}
    ensures BearerToken(headers[AUTHORIZATION]) == Some(apiKey)
    ensures headers[CONTENT_TYPE] == JSON_MEDIA_TYPE
  {
    body := ChatRequest(modelName, [ChatMessage(USER_ROLE, prompt)]);
    headers := map[];
    headers := headers[AUTHORIZATION := AuthorizationValue(apiKey)];
    headers := headers[CONTENT_TYPE := JSON_MEDIA_TYPE];
    AuthorizationCarriesKey(apiKey);
  }

  /** What `llm.invoke` returns: a message with content, or some other object. */
  datatype ModelResponse = ContentResponse(content: string) | OtherResponse(asString: string)

  /** The text pasted: the content stripped, or the object's string form as it is. */
  function ReplyText(response: ModelResponse): (t: string)
    ensures response.ContentResponse? ==> t == Strip(response.content, IsPythonWhitespace)
    ensures response.OtherResponse? ==> t == response.asString
  {
    match response
    case ContentResponse(c) => Strip(c, IsPythonWhitespace)
    case OtherResponse(s) => s
  }

  function PastedResponse(response: Option<ModelResponse>): (r: Option<string>)
    ensures r.Some? <==> response.Some?
    ensures r.Some? && response.value.ContentResponse? ==> r.value == Strip(response.value.content, IsPythonWhitespace)
    ensures r.Some? && response.value.OtherResponse? ==> r.value == response.value.asString
  {
    if response.Some? then Some(ReplyText(response.value)) else None
  }

  /** What the script pastes. Nothing when the model call raised. With OPENAI_URL set, the
      answer is held while the debug copy of the request is posted, and a raising post (refused
      connection, timeout, bad URL) skips the paste too. Otherwise the reply text. */
  function PastedAnswer(baseUrl: Option<string>, response: Option<ModelResponse>, debugPostRaised: bool): (r: Option<string>)
    ensures r.Some? <==> response.Some? && !(baseUrl.Some? && debugPostRaised)
    ensures r.Some? ==> r.value == ReplyText(response.value)
  {
    if baseUrl.Some? && debugPostRaised then None else PastedResponse(response)
  }

  /** Without OPENAI_URL there is no debug post, so the paste depends on the model alone. */
  lemma NoDebugPostWithoutUrl(response: Option<ModelResponse>, debugPostRaised: bool)
    ensures PastedAnswer(None, response, debugPostRaised) == PastedResponse(response)
  {
  }

  class ClipboardAssistant {
    const apiKey: string
    const modelName: string
    const baseUrl: Option<string>
    const listener: ChordListener
    ghost var effects: seq<Effect>
    /** The request bodies and headers built for the model, in order. */
    ghost var requests: seq<(ChatRequest, map<string, string>)>

    ghost predicate Valid()
      reads this, listener
    {
      listener.chord == CtrlWin && listener.Valid()
    }

    constructor (key: string, model: string, url: Option<string>)
      ensures Valid() && fresh(listener) && listener.currentKeys == {}
      ensures apiKey == key && modelName == model && baseUrl == url && effects == [] && requests == []
    {
      apiKey := key;
      modelName := model;
      baseUrl := url;
      listener := new ChordListener(CtrlWin);
      effects := [];
      requests := [];
    }

    /** handle_clipboard(content), with the model's response (None when the call raised) and
        whether the debug post, made only with OPENAI_URL set, raised. A request is built
        exactly when the content is non-empty. */
    method HandleClipboard(content: string, response: Option<ModelResponse>, debugPostRaised: bool)
      modifies this
      ensures effects == old(effects) + ClipboardEffects(content, content, PastedAnswer(baseUrl, response, debugPostRaised))
      ensures content == "" ==> requests == old(requests)
      ensures content != "" ==> |requests| == |old(requests)| + 1 && requests[..|old(requests)|] == old(requests)
      ensures content != "" ==> var (body, headers) := requests[|requests| - 1];
        && body == ChatRequest(modelName, [ChatMessage(USER_ROLE, content)])
        && headers.Keys == {AUTHORIZATION, CONTENT_TYPE}
        && BearerToken(headers[AUTHORIZATION]) == Some(apiKey)
        && headers[CONTENT_TYPE] == JSON_MEDIA_TYPE
    {
      if content == "" {
        effects := effects + [EmptyClipboardWarning];
        return;
      }
      var prompt := content;
      var body, headers := BuildRequest(modelName, apiKey, prompt);
      requests := requests + [(body, headers)];
      effects := effects + [Requested(prompt)];
      if response.Some? && !(baseUrl.Some? && debugPostRaised) {
        var answer := ReplyText(response.value);
        effects := effects + [Pasted(answer)];
        assert PastedAnswer(baseUrl, response, debugPostRaised) == Some(answer);
        assert ClipboardEffects(content, prompt, Some(answer)) == [Requested(prompt), Pasted(answer)];
        assert effects == old(effects) + [Requested(prompt), Pasted(answer)];
      } else {
        assert ClipboardEffects(content, prompt, None) == [Requested(prompt)];
      }
    }

    /** on_press(key), with what the clipboard holds and what the model answers if asked, and whether the debug post raises. */
    method OnPress(k: Key, clipboard: string, response: Option<ModelResponse>, debugPostRaised: bool) returns (fired: bool)
      requires Valid()
      modifies this, listener
      ensures Valid()
      ensures listener.currentKeys == AfterPress(CtrlWin, old(listener.currentKeys), k)
      ensures fired <==> Fires(CtrlWin, listener.currentKeys)
      ensures !fired ==> effects == old(effects) && requests == old(requests)
      ensures fired ==> var content := ClipboardContent(clipboard);
        effects == old(effects) + ClipboardEffects(content, content, PastedAnswer(baseUrl, response, debugPostRaised))
    {
      fired := listener.OnPress(k);
      if fired {
        var content := ClipboardContent(clipboard);
        HandleClipboard(content, response, debugPostRaised);
      }
    }

    /** on_release(key). */
    method OnRelease(k: Key)
      requires Valid()
      modifies listener
      ensures Valid()
      ensures listener.currentKeys == AfterRelease(CtrlWin, old(listener.currentKeys), k)
    {
      listener.OnRelease(k);
    }
  }

  /** main(): refuse to start without a key; otherwise pick the model and base URL and listen. */
  method Launch(apiKeyVariable: Option<string>, openaiLlm: Option<string>, openaiUrl: Option<string>)
    returns (r: Result<ClipboardAssistant, string>)
    ensures r.Failure? <==> apiKeyVariable.None? || apiKeyVariable.value == ""
    ensures r.Failure? ==> r.error == MissingKeyMessage(API_KEY_VARIABLE)
    ensures r.Success? ==>
      && fresh(r.value) && fresh(r.value.listener) && r.value.Valid()
      && Some(r.value.apiKey) == apiKeyVariable && r.value.modelName == ModelName(openaiLlm)
      && r.value.baseUrl == BaseUrl(openaiUrl)
      && r.value.listener.currentKeys == {} && r.value.effects == [] && r.value.requests == []
  {
    match RequireKey(API_KEY_VARIABLE, apiKeyVariable) {
      case Failure(e) => r := Failure(e);
      case Success(key) =>
        var model := GetEnvOr(openaiLlm, DEFAULT_MODEL);
        var url := if openaiUrl.Some? && openaiUrl.value != "" then openaiUrl else None;
        var app := new ClipboardAssistant(key, model, url);
        r := Success(app);
    }
  }
}
