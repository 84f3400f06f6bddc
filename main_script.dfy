/** main.py: Ctrl+Shift sends the clipboard to Gemini with a request to improve the text, and
    pastes the answer. */
module MainScript {
  import opened Wrappers
  import opened Text
  import opened Hotkey
  import opened Assistant

  const API_KEY_VARIABLE := "GEMINI_API_KEY"
  const MODEL_NAME := "gemini-1.5-flash"
  const PROMPT_PREFIX := "verbessere den folgenden Text.\n"

  /** The prompt: the fixed instruction line, then the content. */
  function PromptFor(content: string): (p: string)
    ensures PROMPT_PREFIX <= p && p[|PROMPT_PREFIX|..] == content
    ensures |p| == |PROMPT_PREFIX| + |content|
  {
    PROMPT_PREFIX + content
  }

  /** Different clipboard contents give different prompts. */
  lemma PromptIsInjective(a: string, b: string)
    ensures PromptFor(a) == PromptFor(b) <==> a == b
  {
    if PromptFor(a) == PromptFor(b) {
      assert a == PromptFor(a)[|PROMPT_PREFIX|..];
    }
  }

  /** The running script: its configuration, the hotkey listener, and what it has done. */
  class ClipboardImprover {
    const apiKey: string
    const modelName: string
    const listener: ChordListener
    ghost var effects: seq<Effect>

    ghost predicate Valid()
      reads this, listener
    {
      listener.chord == CtrlShift && listener.Valid()
    }

    constructor (key: string)
      ensures Valid() && fresh(listener) && listener.currentKeys == {}
      ensures apiKey == key && modelName == MODEL_NAME && effects == []
    {
      apiKey := key;
      modelName := MODEL_NAME;
      listener := new ChordListener(CtrlShift);
      effects := [];
    }

    /** handle_clipboard(content), with the model's answer (None when the call raised). */
    method HandleClipboard(content: string, reply: Option<string>)
      modifies this
      ensures effects == old(effects) + ClipboardEffects(content, PromptFor(content), PastedReply(reply))
    {
      if content == "" {
        effects := effects + [EmptyClipboardWarning];
        return;
      }
      var prompt := PromptFor(content);
      effects := effects + [Requested(prompt)];
      if reply.Some? {
        var answer := Strip(reply.value, IsPythonWhitespace);
        effects := effects + [Pasted(answer)];
        assert PastedReply(reply) == Some(answer);
        assert ClipboardEffects(content, prompt, Some(answer)) == [Requested(prompt), Pasted(answer)];
        assert effects == old(effects) + [Requested(prompt), Pasted(answer)];
      } else {
        assert ClipboardEffects(content, prompt, None) == [Requested(prompt)];
      }
    }

    /** on_press(key), with what the clipboard holds and what the model answers if asked. */
    method OnPress(k: Key, clipboard: string, reply: Option<string>) returns (fired: bool)
      requires Valid()
      modifies this, listener
      ensures Valid()
      ensures listener.currentKeys == AfterPress(CtrlShift, old(listener.currentKeys), k)
      ensures fired <==> Fires(CtrlShift, listener.currentKeys)
      ensures !fired ==> effects == old(effects)
      ensures fired ==> var content := ClipboardContent(clipboard);
        effects == old(effects) + ClipboardEffects(content, PromptFor(content), PastedReply(reply))
    {
      fired := listener.OnPress(k);
      if fired {
        var content := ClipboardContent(clipboard);
        HandleClipboard(content, reply);
      }
    }

    /** on_release(key). */
    method OnRelease(k: Key)
      requires Valid()
      modifies listener
      ensures Valid()
      ensures listener.currentKeys == AfterRelease(CtrlShift, old(listener.currentKeys), k)
    {
      listener.OnRelease(k);
    }
  }

  /** main(): refuse to start without a key; otherwise configure the model and listen. */
  method Launch(apiKeyVariable: Option<string>) returns (r: Result<ClipboardImprover, string>)
    ensures r.Failure? <==> apiKeyVariable.None? || apiKeyVariable.value == ""
    ensures r.Failure? ==> r.error == MissingKeyMessage(API_KEY_VARIABLE)
    ensures r.Success? ==>
      && fresh(r.value) && fresh(r.value.listener) && r.value.Valid()
      && Some(r.value.apiKey) == apiKeyVariable && r.value.modelName == MODEL_NAME
      && r.value.listener.currentKeys == {} && r.value.effects == []
  {
    match RequireKey(API_KEY_VARIABLE, apiKeyVariable) {
      case Failure(e) => r := Failure(e);
      case Success(key) =>
        var app := new ClipboardImprover(key);
        r := Success(app);
    }
  }
}
