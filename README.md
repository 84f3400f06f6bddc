# YouTube audio player and clipboard assistants, modelled in Dafny

The repository has two small programs. This project models the core of each and proves
properties of the models.

- **YouTube audio player (Android, Kotlin).**
  - `AudioPlayerService` plays one audio stream through a `MediaPlayer`. It holds audio focus and publishes its playback state through a media session. It also shows a media notification.
  - `MainActivity` checks a typed YouTube link and picks an audio stream among those the extractor returns. It reflects the session's state on screen and sends play, pause and stop to the service.
- **Clipboard assistants (Python).** Three scripts wait for a modifier chord: Ctrl+Shift in `main.py`, Ctrl+Win in the other two. On the chord they send the stripped clipboard text to a language model (Gemini or an OpenAI-compatible endpoint) and paste the answer.

## Layout

| file | module | what it holds |
|---|---|---|
| wrappers.dfy | Wrappers | `Option`, `Result` |
| text.dfy | Text | Kotlin/Python whitespace, trim/strip, substring search, ASCII case folding, integer printing and parsing |
| platform.dfy | Platform | playback-state codes, session actions, the published snapshot |
| notifications.dfy | Notifications | `buildNotification`, and notify / stopForeground on the shown notification |
| service_spec.dfy | ServiceSpec | the service as a state machine over values: one transition function per command and callback, runs of events, and the as-written playTrack |
| service.dfy | PlayerService | the service as a class whose methods are proved to follow ServiceSpec |
| activity.dfy | Activity | the link check, the stream choice, the fetch outcome, the screen for a state, the play/pause dispatch, and the activity class |
| app.dfy | App | lemmas that connect the screen, the notification and the service |
| hotkey.dfy | Hotkey | the chord detector shared by the three scripts, as functions and as a class |
| assistant.dfy | Assistant | the key check, the clipboard guard and the effects shared by the scripts |
| main_script.dfy, gemini_script.dfy, openai_script.dfy | MainScript, GeminiScript, OpenAIScript | one module per script |

### How the service is modelled

`ServiceSpec.ServiceView` is the service's observable state:
- the last published state;
- the current player: none, or one that is preparing, playing or ducked;
- the current track URL;
- whether audio focus is held;
- whether the session is active;
- the foreground flag;
- the notification.

Each `After*` function returns the next view and the snapshots published on the way.

`PlayerService.AudioPlayerService` keeps the fields the Kotlin class keeps, plus ghost fields for platform state: the published log, the focus grant and the notification. Each method ensures `View() == After…(old(View())).next` and `published == old(published) + After…(..).emitted`. It also keeps `Valid()`: all of `ServiceSpec.Consistent` holds, and the session's state is the last state in the log.

The platform decides some outcomes, and the model takes these as parameters:
- whether focus is granted;
- how `setDataSource`/`prepareAsync` ends (accepted, IOException or IllegalStateException);
- the focus-change code;
- which player a callback names.

## Behaviour worth knowing

The model follows the code, with one exception. The playTrack transition
(`ServiceSpec.AfterPlay`), the runs built on it (`ServiceSpec.Step`, `ServiceSpec.Run`),
`PlayerService.AudioPlayerService.PlayTrack` and `App.PlayAfterPauseRestarts` all follow the
corrected order of playTrack given under "## Findings". `ServiceSpec.PlayTrackAsWritten`
models the order as written.

- **Stale callbacks.** There is no generation counter. Every replaced player is released, and a released player delivers no callbacks. `onPrepared` publishes PLAYING for whatever player it is handed.
- **Refused focus.** A play whose focus request is refused returns without publishing anything. It does not enter an error state.
- **Errors.** An engine error publishes ERROR and then immediately stops. The service therefore rests in STOPPED, not in ERROR.
- **Completion.** After completion the session reports STOPPED and stays active. It keeps its track, its player and its focus (`ServiceSpec.CompletedSessionStaysActive`).
- **Notification.** The notification shows the fixed text "Error" rather than the message. The Stop action is present in every state.
- **Foreground promotion.** The service enters the foreground on PLAYING (in `onPrepared`), not on BUFFERING.
- **Resume.** Play after pause, from the screen or from the session, goes through playTrack again. It never resumes the paused player. As written, that playTrack throws while a paused player is still held (`ServiceSpec.ResumeAfterPauseThrowsAsWritten`, see "## Findings"). With the corrected order it restarts the track from a fresh player (`App.PlayAfterPauseRestarts`).

## Model

| member | source | states |
|---|---|---|
| Text.TrimStart | YouTubeAudioPlayer/app/src/main/java/com/example/youtubeaudioplayer/MainActivity.kt:98 | the result is no longer than the input and does not start with whitespace |
| Text.TrimStartSplits | YouTubeAudioPlayer/app/src/main/java/com/example/youtubeaudioplayer/MainActivity.kt:98 | the result is a suffix of the input and everything dropped before it is whitespace |
| Text.TrimEnd | YouTubeAudioPlayer/app/src/main/java/com/example/youtubeaudioplayer/MainActivity.kt:98 | the result is no longer than the input and does not end with whitespace |
| Text.TrimEndSplits | YouTubeAudioPlayer/app/src/main/java/com/example/youtubeaudioplayer/MainActivity.kt:98 | the result is a prefix of the input and everything dropped after it is whitespace |
| Text.StripEmptyIffAllWhitespace | main.py:35 | stripped text is empty exactly when every character is whitespace |
| Text.StripOfPadded | YouTubeAudioPlayer/app/src/main/java/com/example/youtubeaudioplayer/MainActivity.kt:98 | trim removes exactly the whitespace padding around a text that starts and ends with non-whitespace |
| Text.StripIdempotent | ai_clipboard_gemini.py:39 | trimmed text starts and ends with non-whitespace; trimming twice is trimming once |
| Text.Strip | YouTubeAudioPlayer/app/src/main/java/com/example/youtubeaudioplayer/MainActivity.kt:98 | the result is no longer than the input and neither starts nor ends with whitespace |
| Text.ContainsIffOccurs | YouTubeAudioPlayer/app/src/main/java/com/example/youtubeaudioplayer/MainActivity.kt:101 | `contains` holds exactly when the text occurs at some offset |
| Text.ContainsIgnoreCaseIffFolded | YouTubeAudioPlayer/app/src/main/java/com/example/youtubeaudioplayer/MainActivity.kt:167 | `contains(…, true)` holds exactly when the text occurs at some offset with ASCII case folded |
| Text.IntToStringRoundTrip | YouTubeAudioPlayer/app/src/main/java/com/example/youtubeaudioplayer/AudioPlayerService.kt:183 | the decimal rendering of an Int in a string template parses back to the same Int |
| Text.NatToStringRoundTrip | YouTubeAudioPlayer/app/src/main/java/com/example/youtubeaudioplayer/AudioPlayerService.kt:183 | digits rendered for a natural number parse back to it |
| Platform.BuildSnapshot | YouTubeAudioPlayer/app/src/main/java/com/example/youtubeaudioplayer/AudioPlayerService.kt:222-237 | a published state carries the state, the position, all four actions (play, play/pause, pause, stop), and an error message iff the state is ERROR and a message was given |
| Notifications.BuildNotification | YouTubeAudioPlayer/app/src/main/java/com/example/youtubeaudioplayer/AudioPlayerService.kt:255-279 | fixed title and channel; toggle then Stop; Pause toggle and ongoing iff playing or buffering; text "Error" iff ERROR, else "Playing audio"; compact indices in range |
| Notifications.ToggleCommandMatchesState | YouTubeAudioPlayer/app/src/main/java/com/example/youtubeaudioplayer/AudioPlayerService.kt:256-261 | the toggle sends pause in an active state and play otherwise |
| Notifications.Notify | YouTubeAudioPlayer/app/src/main/java/com/example/youtubeaudioplayer/AudioPlayerService.kt:239-241 | the notification shown afterwards is the new one, and foreground status is unchanged |
| Notifications.StopForeground | YouTubeAudioPlayer/app/src/main/java/com/example/youtubeaudioplayer/AudioPlayerService.kt:127 | leaves the foreground; removing drops the notification, detaching keeps the one shown |
| ServiceSpec.InitialIsConsistent | YouTubeAudioPlayer/app/src/main/java/com/example/youtubeaudioplayer/AudioPlayerService.kt:49-71 | the fresh service and the stopped service satisfy the invariant |
| ServiceSpec.NotificationAfterUpdate | YouTubeAudioPlayer/app/src/main/java/com/example/youtubeaudioplayer/AudioPlayerService.kt:239-245 | the notification is reposted with the state's rendering iff the foreground flag is set and the state is neither STOPPED nor NONE |
| ServiceSpec.Publish | YouTubeAudioPlayer/app/src/main/java/com/example/youtubeaudioplayer/AudioPlayerService.kt:222-246 | one well-formed snapshot with the state, the current player's position and the message only for ERROR; the state becomes the published one; the notification is reposted iff the foreground flag is set and the state is neither STOPPED nor NONE; nothing else changes |
| ServiceSpec.ConfigureAndPublish | YouTubeAudioPlayer/app/src/main/java/com/example/youtubeaudioplayer/AudioPlayerService.kt:104-119 | one snapshot: BUFFERING when the data source is accepted, otherwise ERROR with the IOException or IllegalStateException message; focus stays held only on success; nothing else but the state and the notification changes |
| ServiceSpec.AfterPlay | YouTubeAudioPlayer/app/src/main/java/com/example/youtubeaudioplayer/AudioPlayerService.kt:84-121 | empty URL or refused focus: nothing changes and nothing is published. Otherwise: session active, URL recorded, fresh player, focus kept only on success, one snapshot with unknown position, BUFFERING on success, ERROR with the matching fixed message on IOException or IllegalStateException; the notification is reposted with the published state iff the foreground flag is set, and the flag is kept |
| ServiceSpec.AfterPause | YouTubeAudioPlayer/app/src/main/java/com/example/youtubeaudioplayer/AudioPlayerService.kt:123-129 | PAUSED published with the player's position; the player only stops playing, its other fields are kept; flag set; notification is the paused rendering, detached, iff the flag was set before; nothing else changes |
| ServiceSpec.AfterStop | YouTubeAudioPlayer/app/src/main/java/com/example/youtubeaudioplayer/AudioPlayerService.kt:131-141 | from any state: no player, no track, no focus, session inactive, STOPPED published with unknown position, notification removed, flag cleared |
| ServiceSpec.StopIsIdempotent | YouTubeAudioPlayer/app/src/main/java/com/example/youtubeaudioplayer/AudioPlayerService.kt:131-141 | stopping twice ends where stopping once does |
| ServiceSpec.AfterPrepared | YouTubeAudioPlayer/app/src/main/java/com/example/youtubeaudioplayer/AudioPlayerService.kt:160-168 | PLAYING published for any player handed in; the current player starts only if it was the one handed in; the PLAYING notification is in the foreground; track, focus and session unchanged |
| ServiceSpec.AfterCompletion | YouTubeAudioPlayer/app/src/main/java/com/example/youtubeaudioplayer/AudioPlayerService.kt:170-179 | STOPPED published without the completion message; notification detached; flag set; track, player, focus and session kept |
| ServiceSpec.EngineFinished | YouTubeAudioPlayer/app/src/main/java/com/example/youtubeaudioplayer/AudioPlayerService.kt:170-172 | the player that completes stops playing and keeps its other fields; a callback for another player changes nothing |
| ServiceSpec.CompletedSessionStaysActive | YouTubeAudioPlayer/app/src/main/java/com/example/youtubeaudioplayer/AudioPlayerService.kt:170-179 | after completion the session is STOPPED yet active, with its track, a non-playing player and its focus |
| ServiceSpec.CompletionKeepsTrackForReplay | YouTubeAudioPlayer/app/src/main/java/com/example/youtubeaudioplayer/AudioPlayerService.kt:55-59 | after completion the session play command replays the same URL; after a stop it does nothing |
| ServiceSpec.PlaybackErrorMessageRoundTrip | YouTubeAudioPlayer/app/src/main/java/com/example/youtubeaudioplayer/AudioPlayerService.kt:183 | both engine codes can be read back from the error message |
| ServiceSpec.AfterError | YouTubeAudioPlayer/app/src/main/java/com/example/youtubeaudioplayer/AudioPlayerService.kt:181-186 | ERROR with "Playback error: what, extra" and the player's position, then STOPPED; the service ends in the stopped view |
| ServiceSpec.EngineErrorIsReported | YouTubeAudioPlayer/app/src/main/java/com/example/youtubeaudioplayer/AudioPlayerService.kt:181-186 | the first published state is ERROR and its message decodes to the two engine codes; the service rests in STOPPED |
| ServiceSpec.AfterFocusChange | YouTubeAudioPlayer/app/src/main/java/com/example/youtubeaudioplayer/AudioPlayerService.kt:213-220 | LOSS and LOSS_TRANSIENT act exactly as pause; CAN_DUCK and GAIN only set the player's ducked flag (on for CAN_DUCK, off for GAIN), keep every other field of player and service, and publish nothing; any other code changes nothing |
| ServiceSpec.AfterSessionPlay | YouTubeAudioPlayer/app/src/main/java/com/example/youtubeaudioplayer/AudioPlayerService.kt:55-59 | with a current track, plays it again; without one, nothing |
| ServiceSpec.Step | YouTubeAudioPlayer/app/src/main/java/com/example/youtubeaudioplayer/AudioPlayerService.kt:54-68 | every command and callback keeps the invariant; the session's state is the last one it publishes; every published state is well formed |
| ServiceSpec.Run | YouTubeAudioPlayer/app/src/main/java/com/example/youtubeaudioplayer/AudioPlayerService.kt:53-68 | any sequence of events keeps the invariant |
| ServiceSpec.RunPublishes | YouTubeAudioPlayer/app/src/main/java/com/example/youtubeaudioplayer/AudioPlayerService.kt:237 | along any sequence of events, the session's state is the last published one and every published state is well formed |
| ServiceSpec.StopAfterAnything | YouTubeAudioPlayer/app/src/main/java/com/example/youtubeaudioplayer/AudioPlayerService.kt:131-141 | after any history, a stop gives the stopped view, with STOPPED (unknown position) as the last published state |
| ServiceSpec.PlayTrackAsWritten | YouTubeAudioPlayer/app/src/main/java/com/example/youtubeaudioplayer/AudioPlayerService.kt:94-120 | as written: with no previous player, the same as the corrected playTrack; with one, throws IllegalStateException and leaves a released player current with the session active, the URL set and focus held |
| ServiceSpec.ResumeAfterPauseThrowsAsWritten | YouTubeAudioPlayer/app/src/main/java/com/example/youtubeaudioplayer/AudioPlayerService.kt:96-110 | play, prepared, pause, then play again: as written this throws |
| ServiceSpec.ResumeAfterPauseRebuffers | YouTubeAudioPlayer/app/src/main/java/com/example/youtubeaudioplayer/AudioPlayerService.kt:84-121 | the same sequence, corrected, rebuffers from a fresh player and keeps the invariant |
| PlayerService.PlayerViewOf | YouTubeAudioPlayer/app/src/main/java/com/example/youtubeaudioplayer/AudioPlayerService.kt:25 | no player iff the field is null; released iff the object was released |
| PlayerService.AppendKeepsLogAgreement | YouTubeAudioPlayer/app/src/main/java/com/example/youtubeaudioplayer/AudioPlayerService.kt:237 | appending the states a transition publishes keeps the session log in agreement with its state |
| PlayerService.AudioPlayerService.constructor | YouTubeAudioPlayer/app/src/main/java/com/example/youtubeaudioplayer/AudioPlayerService.kt:49-71 | onCreate: the initial view, nothing published |
| PlayerService.AudioPlayerService.IsPlaying | YouTubeAudioPlayer/app/src/main/java/com/example/youtubeaudioplayer/AudioPlayerService.kt:149 | true iff a current, unreleased player is playing |
| PlayerService.AudioPlayerService.UpdatePlaybackState | YouTubeAudioPlayer/app/src/main/java/com/example/youtubeaudioplayer/AudioPlayerService.kt:222-246 | the state moves as ServiceSpec.Publish says, and the snapshot is appended to the log; the player reference is unchanged |
| PlayerService.AudioPlayerService.AbandonAudioFocus | YouTubeAudioPlayer/app/src/main/java/com/example/youtubeaudioplayer/AudioPlayerService.kt:204-211 | focus released; nothing else changes |
| PlayerService.AudioPlayerService.PlayTrack | YouTubeAudioPlayer/app/src/main/java/com/example/youtubeaudioplayer/AudioPlayerService.kt:84-121 | follows ServiceSpec.AfterPlay (corrected order); on a real play the old player is released and the new one is fresh |
| PlayerService.AudioPlayerService.PauseTrack | YouTubeAudioPlayer/app/src/main/java/com/example/youtubeaudioplayer/AudioPlayerService.kt:123-129 | follows ServiceSpec.AfterPause |
| PlayerService.AudioPlayerService.StopTrack | YouTubeAudioPlayer/app/src/main/java/com/example/youtubeaudioplayer/AudioPlayerService.kt:131-141 | follows ServiceSpec.AfterStop; the old player is released and the field is null |
| PlayerService.AudioPlayerService.StopTrackAndService | YouTubeAudioPlayer/app/src/main/java/com/example/youtubeaudioplayer/AudioPlayerService.kt:143-147 | stopTrack, then stopSelf is requested |
| PlayerService.AudioPlayerService.OnDestroy | YouTubeAudioPlayer/app/src/main/java/com/example/youtubeaudioplayer/AudioPlayerService.kt:153-158 | stopTrack, then the session is released |
| PlayerService.AudioPlayerService.OnPrepared | YouTubeAudioPlayer/app/src/main/java/com/example/youtubeaudioplayer/AudioPlayerService.kt:160-168 | follows ServiceSpec.AfterPrepared; the player handed in is started |
| PlayerService.AudioPlayerService.OnCompletion | YouTubeAudioPlayer/app/src/main/java/com/example/youtubeaudioplayer/AudioPlayerService.kt:170-179 | follows ServiceSpec.AfterCompletion |
| PlayerService.AudioPlayerService.OnError | YouTubeAudioPlayer/app/src/main/java/com/example/youtubeaudioplayer/AudioPlayerService.kt:181-186 | follows ServiceSpec.AfterError and reports the error as handled |
| PlayerService.AudioPlayerService.OnAudioFocusChange | YouTubeAudioPlayer/app/src/main/java/com/example/youtubeaudioplayer/AudioPlayerService.kt:213-220 | follows ServiceSpec.AfterFocusChange |
| PlayerService.AudioPlayerService.OnPlay | YouTubeAudioPlayer/app/src/main/java/com/example/youtubeaudioplayer/AudioPlayerService.kt:55-59 | follows ServiceSpec.AfterSessionPlay |
| PlayerService.AudioPlayerService.OnPause | YouTubeAudioPlayer/app/src/main/java/com/example/youtubeaudioplayer/AudioPlayerService.kt:61-63 | follows ServiceSpec.AfterPause |
| PlayerService.AudioPlayerService.OnStop | YouTubeAudioPlayer/app/src/main/java/com/example/youtubeaudioplayer/AudioPlayerService.kt:65-67 | stops the track and requests stopSelf |
| Activity.CheckUrl | YouTubeAudioPlayer/app/src/main/java/com/example/youtubeaudioplayer/MainActivity.kt:98-103 | empty iff the text is all whitespace; refused iff the trimmed text names neither youtube.com/ nor youtu.be/; otherwise hands on the trimmed, non-empty YouTube link |
| Activity.YouTubeLinkIffHostOccurs | YouTubeAudioPlayer/app/src/main/java/com/example/youtubeaudioplayer/MainActivity.kt:101 | a link passes exactly when youtube.com/ or youtu.be/ occurs in it |
| Activity.CheckUrlIgnoresPadding | YouTubeAudioPlayer/app/src/main/java/com/example/youtubeaudioplayer/MainActivity.kt:99 | surrounding blanks change neither the verdict nor the link handed on |
| Activity.ShortLinkIsAccepted | YouTubeAudioPlayer/app/src/main/java/com/example/youtubeaudioplayer/MainActivity.kt:101 | a worked example of Activity.CheckUrl: a youtu.be link passes the check unchanged |
| Activity.FirstWithFormat | YouTubeAudioPlayer/app/src/main/java/com/example/youtubeaudioplayer/MainActivity.kt:167 | the first index whose format name contains the tag, ignoring case, or none when no stream has it |
| Activity.HasFormatIffFolded | YouTubeAudioPlayer/app/src/main/java/com/example/youtubeaudioplayer/MainActivity.kt:167 | a stream has a format exactly when the tag occurs in its format name, ignoring ASCII case |
| Activity.ChooseStream | YouTubeAudioPlayer/app/src/main/java/com/example/youtubeaudioplayer/MainActivity.kt:167 | none iff the list is empty; the first Opus stream if any; else the first M4A stream if any; else the first stream |
| Activity.OpusPreferredOverM4a | YouTubeAudioPlayer/app/src/main/java/com/example/youtubeaudioplayer/MainActivity.kt:167 | a worked example of Activity.ChooseStream: an Opus stream listed after an M4A stream is still chosen |
| Activity.ResolveFetch | YouTubeAudioPlayer/app/src/main/java/com/example/youtubeaudioplayer/MainActivity.kt:162-205 | a stream URL results iff the list is present and non-empty, and it is the chosen stream's URL with "Audio ready. Press Play."; an absent or empty list gives "No audio streams found."; each exception gets its message and hides the controls; the unsuitable-stream text is never shown |
| Activity.UiFor | YouTubeAudioPlayer/app/src/main/java/com/example/youtubeaudioplayer/MainActivity.kt:120-146 | "Playing" for PLAYING, "Buffering..." for BUFFERING, "Paused" for PAUSED, "Stopped" for STOPPED and NONE; an error shows the session's message or a fixed text; pause icon iff playing or buffering; controls shown unless stopped or idle with nothing fetched |
| Activity.PlayPauseDispatch | YouTubeAudioPlayer/app/src/main/java/com/example/youtubeaudioplayer/MainActivity.kt:209-234 | not ready iff unbound or no controller; pause iff the controller reports playing or buffering; play iff otherwise a non-empty stream URL is loaded, and it plays that URL |
| Activity.ButtonFollowsIcon | YouTubeAudioPlayer/app/src/main/java/com/example/youtubeaudioplayer/MainActivity.kt:212-214 | with the service ready, the button pauses iff the pause icon is shown |
| Activity.MainActivity.constructor | YouTubeAudioPlayer/app/src/main/java/com/example/youtubeaudioplayer/MainActivity.kt:86-108 | welcome text, controls hidden, nothing fetched, unbound |
| Activity.MainActivity.UpdateUIFromPlaybackState | YouTubeAudioPlayer/app/src/main/java/com/example/youtubeaudioplayer/MainActivity.kt:120-146 | status, icon and controls become Activity.UiFor of the state |
| Activity.MainActivity.OnPlaybackStateChanged | YouTubeAudioPlayer/app/src/main/java/com/example/youtubeaudioplayer/MainActivity.kt:78-84 | a present state updates the screen; an absent one changes nothing |
| Activity.MainActivity.OnServiceConnected | YouTubeAudioPlayer/app/src/main/java/com/example/youtubeaudioplayer/MainActivity.kt:50-67 | bound; with a controller, the screen shows the last state, or NONE when there is none; without one, the screen is unchanged |
| Activity.MainActivity.OnServiceDisconnected | YouTubeAudioPlayer/app/src/main/java/com/example/youtubeaudioplayer/MainActivity.kt:69-75 | unbound, no controller, nothing else changes |
| Activity.MainActivity.FetchAudioStream | YouTubeAudioPlayer/app/src/main/java/com/example/youtubeaudioplayer/MainActivity.kt:148-155 | a stop to the session when a controller exists; progress text; button disabled; stream URL cleared; extraction pending |
| Activity.MainActivity.OnFetchClicked | YouTubeAudioPlayer/app/src/main/java/com/example/youtubeaudioplayer/MainActivity.kt:98-103 | the two refusal texts, or a fetch of the trimmed link |
| Activity.MainActivity.CompleteFetch | YouTubeAudioPlayer/app/src/main/java/com/example/youtubeaudioplayer/MainActivity.kt:160-205 | screen and stream URL as Activity.ResolveFetch says; button enabled again |
| Activity.MainActivity.HandlePlayPause | YouTubeAudioPlayer/app/src/main/java/com/example/youtubeaudioplayer/MainActivity.kt:209-234 | the command is Activity.PlayPauseDispatch; pause sends a pause; play starts the service and calls playTrack with the URL; the two refusal texts |
| Activity.MainActivity.HandleStop | YouTubeAudioPlayer/app/src/main/java/com/example/youtubeaudioplayer/MainActivity.kt:236-240 | a stop iff bound with a controller |
| App.ScreenIconMatchesNotification | YouTubeAudioPlayer/app/src/main/java/com/example/youtubeaudioplayer/MainActivity.kt:123-144 | the screen's play/pause icon is the notification toggle's icon for the same state |
| App.PublishedErrorShowsOnScreen | YouTubeAudioPlayer/app/src/main/java/com/example/youtubeaudioplayer/MainActivity.kt:140-143 | an engine error shows on screen as its message, the codes can be read back, and the controls stay visible |
| App.ErrorThenStopOnScreen | YouTubeAudioPlayer/app/src/main/java/com/example/youtubeaudioplayer/MainActivity.kt:133-138 | the STOPPED that follows an error shows the stopped text, the play icon, and controls only with a stream loaded |
| App.PlayAfterPauseRestarts | YouTubeAudioPlayer/app/src/main/java/com/example/youtubeaudioplayer/MainActivity.kt:215-227 | after a pause, the button replays the URL, and the service rebuffers from position 0 |
| App.ButtonMatchesScreenForEveryState | YouTubeAudioPlayer/app/src/main/java/com/example/youtubeaudioplayer/MainActivity.kt:212-227 | with a stream loaded, the button pauses iff the pause icon is shown and otherwise plays the URL |
| Hotkey.Target | main.py:32 | the chord set always holds ctrl, holds shift exactly for Ctrl+Shift and win exactly for Ctrl+Win |
| Hotkey.TagOf | ai_clipboard_gemini.py:32-35 | both Ctrl keys give ctrl; a Shift key gives shift exactly in the Ctrl+Shift script; a Cmd key gives win exactly in the Ctrl+Win script; every other key gives nothing |
| Hotkey.AfterPress | main.py:27-30 | a tag is in the new set iff it was held or it is the pressed key's tag; keys without a tag change nothing |
| Hotkey.AfterRelease | main.py:43-46 | a tag is in the new set iff it was held and is not the released key's tag; keys without a tag change nothing |
| Hotkey.HeldChordRefires | main.py:32-37 | while the chord is held, any further press fires again |
| Hotkey.PressThenReleaseRestores | ai_clipboard_openai.py:31-51 | pressing then releasing a key whose tag was not held restores the set |
| Hotkey.ReleaseOfAbsentTagIsNoOp | main.py:41-46 | releasing a key whose tag is absent is a no-op |
| Hotkey.ChordFiresInEitherOrder | ai_clipboard_gemini.py:30-41 | Ctrl then the other modifier fires, in either order; releasing either disarms |
| Hotkey.ReplayStaysWithinChord | main.py:23-46 | whatever the keys do, the set stays a subset of the chord |
| Hotkey.UnrelatedKeysChangeNothing | ai_clipboard_openai.py:31-36 | keys with no tag never change the set |
| Hotkey.ChordListener.constructor | main.py:23 | an empty set for the given chord |
| Hotkey.ChordListener.OnPress | main.py:25-32 | the set becomes Hotkey.AfterPress; fired iff the set equals the chord; the invariant is kept |
| Hotkey.ChordListener.OnRelease | main.py:41-46 | the set becomes Hotkey.AfterRelease; the invariant is kept |
| Assistant.RequireKey | main.py:11-13 | refused, with the RuntimeError message, iff the key is unset or empty; otherwise the key |
| Assistant.GetEnvOr | ai_clipboard_gemini.py:19 | the variable's value whenever it is set, even when empty; otherwise the default |
| Assistant.ClipboardEffects | main.py:50-70 | empty content gives only the warning; otherwise the prompt is sent, and the reply is pasted iff the model answered |
| Assistant.RequestIffNonBlankClipboard | main.py:35-54 | the model is asked iff the clipboard holds a non-whitespace character |
| Assistant.ContentIsStripped | ai_clipboard_gemini.py:39 | the content sent has no surrounding whitespace |
| Assistant.ClipboardContent | main.py:35 | the clipboard text without surrounding whitespace: no longer than the raw text, no whitespace at either end |
| Assistant.PastedReply | main.py:59 | the pasted answer is the reply stripped, when there is one |
| MainScript.PromptFor | main.py:56 | the prompt is the instruction line followed exactly by the content |
| MainScript.PromptIsInjective | main.py:56 | different contents give different prompts |
| MainScript.ClipboardImprover.constructor | main.py:15-23 | key, the fixed model name, an empty Ctrl+Shift listener |
| MainScript.ClipboardImprover.HandleClipboard | main.py:50-70 | appends Assistant.ClipboardEffects for the instruction prompt |
| MainScript.ClipboardImprover.OnPress | main.py:25-39 | updates the chord set; on firing, handles the stripped clipboard; otherwise no effect |
| MainScript.ClipboardImprover.OnRelease | main.py:41-48 | updates the chord set |
| MainScript.Launch | main.py:10-16 | fails with the RuntimeError message iff the key is unset or empty; otherwise a fresh assistant with the key and "gemini-1.5-flash" |
| GeminiScript.ModelName | ai_clipboard_gemini.py:18-19 | GOOGLE_LLM when set, even empty; else "gemini-1.5-flash-latest" |
| GeminiScript.PromptFor | ai_clipboard_gemini.py:62 | the prompt is the content unchanged |
| GeminiScript.ClipboardAssistant.constructor | ai_clipboard_gemini.py:14-28 | key, model, an empty Ctrl+Win listener |
| GeminiScript.ClipboardAssistant.HandleClipboard | ai_clipboard_gemini.py:54-76 | appends Assistant.ClipboardEffects for the content as prompt |
| GeminiScript.ClipboardAssistant.OnPress | ai_clipboard_gemini.py:30-43 | updates the chord set; on firing, handles the stripped clipboard; otherwise no effect |
| GeminiScript.ClipboardAssistant.OnRelease | ai_clipboard_gemini.py:45-52 | updates the chord set |
| GeminiScript.Launch | ai_clipboard_gemini.py:9-20 | fails iff the key is unset or empty; otherwise a fresh assistant with the key and GeminiScript.ModelName |
| OpenAIScript.ModelName | ai_clipboard_openai.py:18-19 | OPENAI_LLM when set, even empty; else "gpt-3.5-turbo" |
| OpenAIScript.BaseUrl | ai_clipboard_openai.py:84 | OPENAI_URL iff it is set and non-empty; otherwise the default |
| OpenAIScript.AuthorizationCarriesKey | ai_clipboard_openai.py:71 | the key can be read back from the Authorization value |
| OpenAIScript.BuildRequest | ai_clipboard_openai.py:65-73 | the body has the model and exactly one user message with the prompt; the headers are exactly Authorization (Bearer and the key) and Content-Type application/json |
| OpenAIScript.ReplyText | ai_clipboard_openai.py:87 | a response with content pastes the content stripped; any other response pastes its string form |
| OpenAIScript.PastedResponse | ai_clipboard_openai.py:86-87 | the reply the script holds iff the model answered: the stripped content, or the response's string form |
| OpenAIScript.PastedAnswer | ai_clipboard_openai.py:86-106 | a reply is pasted iff the model answered and, with OPENAI_URL set, the debug post did not raise; the pasted text is the reply text |
| OpenAIScript.NoDebugPostWithoutUrl | ai_clipboard_openai.py:89 | without OPENAI_URL the paste depends on the model's answer alone |
| OpenAIScript.ClipboardAssistant.constructor | ai_clipboard_openai.py:12-29 | key, model, base URL, an empty Ctrl+Win listener |
| OpenAIScript.ClipboardAssistant.HandleClipboard | ai_clipboard_openai.py:55-106 | appends Assistant.ClipboardEffects for the content, pasting OpenAIScript.PastedAnswer; builds exactly one request, with the model, the content and the bearer key, iff the content is non-empty |
| OpenAIScript.ClipboardAssistant.OnPress | ai_clipboard_openai.py:31-44 | updates the chord set; on firing, handles the stripped clipboard, with the answer pasted as OpenAIScript.PastedAnswer says; otherwise no effect and no request |
| OpenAIScript.ClipboardAssistant.OnRelease | ai_clipboard_openai.py:46-53 | updates the chord set |
| OpenAIScript.Launch | ai_clipboard_openai.py:12-20 | fails iff the key is unset or empty; otherwise a fresh assistant with the key, OpenAIScript.ModelName and OpenAIScript.BaseUrl |

## Left out

- **Android SDK branches.** Focus on API 26+ versus the deprecated call (AudioPlayerService.kt:190-210) is one request and one abandon here. A delayed grant (`AUDIOFOCUS_REQUEST_DELAYED`) counts as a refusal, as the code treats it. Notification channel creation is left out.
- **Floating point.** The volume levels 0.3f/1.0f are a ducked flag. Playback speed 1.0f is left out. The OpenAI temperature 0.7 is not part of `OpenAIScript.ChatRequest`.
- **MediaPlayer's own state machine.** The exceptions `stop()`, `pause()` and `isPlaying()` can throw when called in a state the engine refuses (for example `stop()` while still preparing) are not modelled. Neither is the engine's asynchronous reporting of such misuse through onError.
- **Uncaught data-source exceptions.** `setDataSource` can also throw IllegalArgumentException or SecurityException, and nothing catches those. Only the two caught exceptions are modelled.
- **Notification details.** The media-session token, the content intent and the small icon of the notification are left out. So is how the system treats a detached notification once the service stops.
- **onStartCommand.** The media-button intent routing in onStartCommand (AudioPlayerService.kt:73-82) is platform code and is left out.
- **The activity's lifecycle glue.** onStart's re-bind and onDestroy's unbind (MainActivity.kt:242-261) are left out. So is the order in which asynchronous controller callbacks interleave with the fetch. In the source, the STOPPED caused by the fetch's stop request arrives later and can overwrite the progress text.
- **Threads.** The extraction runs on an IO coroutine. In the source it assigns the stream URL from that thread. Here `CompleteFetch` applies the whole result at once.
- **NewPipe and YoutubeHelper.** The extractor and its downloader appear only as a `FetchOutcome`. If NewPipe ever returns no URL for a stream, that case is not modelled.
- **Language-model calls and I/O.** The calls to the language models become a reply parameter. The debug `requests.post` in the OpenAI script becomes a logged request plus a flag saying whether the post raised; what it prints is left out. The clipboard, keystroke simulation, sleeping, printing, the pynput listener loop and reading environment variables become parameters or are left out.
- **Playback progress.** No method of `PlayerService.MediaPlayer` and no event advances the playback position, so every position the class publishes is 0. The `ServiceSpec` functions and their lemmas take views with any position.
- **Case folding and whitespace.** `Activity.HasFormat` folds case on ASCII letters only. Kotlin's ignore-case comparison also folds other letters; format names are ASCII.
- **On-screen notification text.** The notification shows "Playing audio" for PAUSED and STOPPED too. This is modelled as written and not reported as a defect.
- **PlayerService.AudioPlayerService.OnCompletion.** It requires that the current player no longer plays. This is the engine's own move to PlaybackCompleted, which `ServiceSpec.EngineFinished` models for event runs.
- **PlayerService.AudioPlayerService.OnPrepared.** It requires that the player handed in is not released, because the platform never calls back a released player.

## Findings

| source | as written | input that shows it | evidently intended | confidence | as-written member | corrected member |
|---|---|---|---|---|---|---|
| YouTubeAudioPlayer/app/src/main/java/com/example/youtubeaudioplayer/AudioPlayerService.kt:96-120 | The new player is stored in `mediaPlayer` only after its `apply` block. Inside that block `updatePlaybackState` reads `currentPosition` of the player released at line 96. That read throws IllegalStateException. The catch handler calls `updatePlaybackState` again and throws out of `playTrack`, leaving the released player current. | play a URL, onPrepared, pause, then play again (any play while a player exists: resume from the screen, replay after completion, retry after a failed data source) | publish BUFFERING (or the error) while the field no longer holds the released player, then store the new player | not executed; rests on MediaPlayer throwing IllegalStateException from getCurrentPosition after release() | ServiceSpec.PlayTrackAsWritten, ServiceSpec.ResumeAfterPauseThrowsAsWritten | ServiceSpec.AfterPlay, ServiceSpec.ResumeAfterPauseRebuffers |
