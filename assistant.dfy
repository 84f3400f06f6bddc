/** What the three clipboard scripts have in common besides the hotkey: the start-up check of
    the API key, reading the clipboard, the empty-clipboard guard, and pasting the reply. */
module Assistant {
  import opened Wrappers
  import opened Text

  /** The message of the RuntimeError raised when the key variable is unset or empty. */
  function MissingKeyMessage(variable: string): string {
    "Umgebungsvariable " + variable + " ist nicht gesetzt!"
  }

  /** The start-up check of the API key read from `variable`: an unset variable and an empty
      one are both refused with a RuntimeError. */
  function RequireKey(variable: string, apiKey: Option<string>): (r: Result<string, string>)
    ensures r.Failure? <==> apiKey.None? || apiKey.value == ""
    ensures r.Success? ==> Some(r.value) == apiKey && r.value != ""
    ensures r.Failure? ==> r.error == MissingKeyMessage(variable)
  {
    if apiKey.None? || apiKey.value == "" then Failure(MissingKeyMessage(variable)) else Success(apiKey.value)
  }

  /** Python's getenv with a default: the variable's value whenever it is set, even when set to
      the empty string, and the default only when it is unset. */
  function GetEnvOr(value: Option<string>, default: string): (r: string)
    ensures value.Some? ==> r == value.value
    ensures value.None? ==> r == default
  {
    if value.Some? then value.value else default
  }

  /** The clipboard text with surrounding whitespace removed, as Python's strip removes it. */
  function ClipboardContent(raw: string): (c: string)
    ensures |c| <= |raw|
    ensures c == [] || (!IsPythonWhitespace(c[0]) && !IsPythonWhitespace(c[|c| - 1]))
  {
    Strip(raw, IsPythonWhitespace)
  }

  /** The model's answer text, stripped, when the model answered; None when the call raised. */
  function PastedReply(reply: Option<string>): (r: Option<string>)
    ensures r.Some? <==> reply.Some?
    ensures r.Some? ==> r.value == Strip(reply.value, IsPythonWhitespace)
  {
    if reply.Some? then Some(Strip(reply.value, IsPythonWhitespace)) else None
  }

  /** What one run of handle_clipboard does that is visible outside the script. */
  datatype Effect =
    | EmptyClipboardWarning
    | Requested(prompt: string)     // sent to the model
    | Pasted(text: string)          // copied to the clipboard, then Ctrl+V

  /** handle_clipboard(content): warn and stop on empty content; otherwise send `prompt`, and
      paste `reply` unless the model call failed (the exception is caught and printed). */
  function ClipboardEffects(content: string, prompt: string, reply: Option<string>): (r: seq<Effect>)
    ensures content == "" ==> r == [EmptyClipboardWarning]
    ensures content != "" ==> |r| == (if reply.Some? then 2 else 1) && r[0] == Requested(prompt)
    ensures content != "" && reply.Some? ==> r[1] == Pasted(reply.value)
  {
    if content == "" then [EmptyClipboardWarning]
    else [Requested(prompt)] + (if reply.Some? then [Pasted(reply.value)] else [])
  }

  predicate SendsRequest(effects: seq<Effect>) {
    exists i :: 0 <= i < |effects| && effects[i].Requested?
  }

  /** The model is asked exactly when the clipboard holds something besides whitespace. */
  lemma RequestIffNonBlankClipboard(raw: string, prompt: string, reply: Option<string>)
    ensures SendsRequest(ClipboardEffects(ClipboardContent(raw), prompt, reply)) <==> !AllSatisfy(raw, IsPythonWhitespace)
  {
    StripEmptyIffAllWhitespace(raw, IsPythonWhitespace);
    var effects := ClipboardEffects(ClipboardContent(raw), prompt, reply);
    if ClipboardContent(raw) != "" {
      assert effects[0].Requested?;
    }
  }

  /** The content handed to the model is already stripped: stripping it again changes nothing,
      and it neither starts nor ends with whitespace. */
  lemma ContentIsStripped(raw: string)
    ensures var c := ClipboardContent(raw);
      ClipboardContent(c) == c && (c == [] || (!IsPythonWhitespace(c[0]) && !IsPythonWhitespace(c[|c| - 1])))
  {
    StripIdempotent(raw, IsPythonWhitespace);
  }
}
