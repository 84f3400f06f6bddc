/** ai_clipboard_gemini.py: Ctrl+Win sends the clipboard as it is to a Gemini model chosen by
    the GOOGLE_LLM variable, and pastes the answer. */
module GeminiScript {
  import opened Wrappers
  import opened Text
  import opened Hotkey
  import opened Assistant

  const API_KEY_VARIABLE := "GEMINI_API_KEY"
  const DEFAULT_MODEL := "gemini-1.5-flash-latest"

  /** The model: GOOGLE_LLM whenever it is set (an empty value included), else the default. */
  function ModelName(googleLlm: Option<string>): (m: string)
    ensures googleLlm.None? ==> m == DEFAULT_MODEL
    ensures googleLlm.Some? ==> m == googleLlm.value
  {
    GetEnvOr(googleLlm, DEFAULT_MODEL)
  }

  /** The prompt is the stripped clipboard content, unchanged. */
  function PromptFor(content: string): (p: string)
    ensures |p| == |content| && forall i :: 0 <= i < |p| ==> p[i] == content[i]
  {
    content
  }

  class ClipboardAssistant {
    const apiKey: string
    const modelName: string
    const listener: ChordListener
    ghost var effects: seq<Effect>

    ghost predicate Valid()
      reads this, listener
    {
      listener.chord == CtrlWin && listener.Valid()
    }

    constructor (key: string, model: string)
      ensures Valid() && fresh(listener) && listener.currentKeys == {}
      ensures apiKey == key && modelName == model && effects == []
    {
      apiKey := key;
      modelName := model;
      listener := new ChordListener(CtrlWin);
      effects := [];
    }

    /** handle_clipboard(content), with the model's answer (None when the call raised). */
    method HandleClipboard(content: string, reply: Option<string>)
      modifies this
      ensures effects == old(effects) + ClipboardEffects(content, PromptFor(content), PastedReply(reply))
    {
      if content == "" {
        effects := effects + [EmptyClipboardWarning];
        return;
      }
      var prompt := PromptFor(content);
      effects := effects + [Requested(prompt)];
      if reply.Some? {
        var answer := Strip(reply.value, IsPythonWhitespace);
        effects := effects + [Pasted(answer)];
        assert PastedReply(reply) == Some(answer);
        assert ClipboardEffects(content, prompt, Some(answer)) == [Requested(prompt), Pasted(answer)];
        assert effects == old(effects) + [Requested(prompt), Pasted(answer)];
      } else {
        assert ClipboardEffects(content, prompt, None) == [Requested(prompt)];
      }
    }

    /** on_press(key), with what the clipboard holds and what the model answers if asked. */
    method OnPress(k: Key, clipboard: string, reply: Option<string>) returns (fired: bool)
      requires Valid()
      modifies this, listener
      ensures Valid()
      ensures listener.currentKeys == AfterPress(CtrlWin, old(listener.currentKeys), k)
      ensures fired <==> Fires(CtrlWin, listener.currentKeys)
      ensures !fired ==> effects == old(effects)
      ensures fired ==> var content := ClipboardContent(clipboard);
        effects == old(effects) + ClipboardEffects(content, PromptFor(content), PastedReply(reply))
    {
      fired := listener.OnPress(k);
      if fired {
        var content := ClipboardContent(clipboard);
        HandleClipboard(content, reply);
      }
    }

    /** on_release(key). */
    method OnRelease(k: Key)
      requires Valid()
      modifies listener
      ensures Valid()
      ensures listener.currentKeys == AfterRelease(CtrlWin, old(listener.currentKeys), k)
    {
      listener.OnRelease(k);
    }
  }

  /** main(): refuse to start without a key; otherwise pick the model and listen. */
  method Launch(apiKeyVariable: Option<string>, googleLlm: Option<string>) returns (r: Result<ClipboardAssistant, string>)
    ensures r.Failure? <==> apiKeyVariable.None? || apiKeyVariable.value == ""
    ensures r.Failure? ==> r.error == MissingKeyMessage(API_KEY_VARIABLE)
    ensures r.Success? ==>
      && fresh(r.value) && fresh(r.value.listener) && r.value.Valid()
      && Some(r.value.apiKey) == apiKeyVariable && r.value.modelName == ModelName(googleLlm)
      && r.value.listener.currentKeys == {} && r.value.effects == []
  {
    match RequireKey(API_KEY_VARIABLE, apiKeyVariable) {
      case Failure(e) => r := Failure(e);
      case Success(key) =>
        var model := GetEnvOr(googleLlm, DEFAULT_MODEL);
        var app := new ClipboardAssistant(key, model);
        r := Success(app);
    }
  }
}
