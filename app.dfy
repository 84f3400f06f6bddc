/** How the screen and the service fit together: the play/pause icon, the notification's toggle
    and the button's effect agree; an engine error reaches the screen with its codes; and the
    button's "play" after a pause restarts the track. */
module App {
  import opened Wrappers
  import opened Platform
  import opened Notifications
  import opened ServiceSpec
  import opened Activity

  /** The screen's play/pause icon is the icon of the notification's toggle for the same state. */
  lemma ScreenIconMatchesNotification(s: Snapshot, hasStreamUrl: bool)
    ensures UiFor(s, hasStreamUrl).icon == BuildNotification(s.state).actions[0].icon
  {
  }

  /** Every state the service publishes shows on the screen as its own text, except an error,
      which shows the message published with it. */
  lemma PublishedErrorShowsOnScreen(v: ServiceView, what: int, extra: int, hasStreamUrl: bool)
    requires Consistent(v)
    ensures var shown := UiFor(AfterError(v, what, extra).emitted[0], hasStreamUrl);
      && shown.status == PlaybackErrorMessage(what, extra)
      && DecodePlaybackError(shown.status) == Some((what, extra))
      && shown.controlsVisible
  {
    EngineErrorIsReported(v, what, extra);
  }

  /** A playback that stops after an error then leaves the screen with the stopped text and the
      controls kept only when a stream is loaded. */
  lemma ErrorThenStopOnScreen(v: ServiceView, what: int, extra: int, hasStreamUrl: bool)
    requires Consistent(v)
    ensures var shown := UiFor(AfterError(v, what, extra).emitted[1], hasStreamUrl);
      shown.status == MSG_STOPPED && shown.controlsVisible == hasStreamUrl && shown.icon == IcMediaPlay
  {
  }

  /** Pressing play/pause on a paused track re-plays the fetched stream from the start: the
      button asks the service to play the URL again, and the service prepares a new player at
      position 0 and reports BUFFERING rather than resuming the paused one. */
  lemma PlayAfterPauseRestarts(v: ServiceView, url: string)
    requires Consistent(v) && url != ""
    ensures var paused := AfterPause(v).next;
      && PlayPauseDispatch(true, true, Some(paused.state), Some(url)) == StartPlayback(url)
      && var t := AfterPlay(paused, url, true, SourceAccepted);
         t.next.player == Player(true, false, false, 0) && t.next.state == StateBuffering
         && UiFor(t.emitted[0], true).status == MSG_BUFFERING
  {
  }

  /** With the service ready and a stream loaded, the button pauses while the screen shows
      the pause icon and starts the stream otherwise, for every state the service publishes. */
  lemma ButtonMatchesScreenForEveryState(s: Snapshot, url: string)
    requires url != ""
    ensures var c := PlayPauseDispatch(true, true, Some(s.state), Some(url));
      (c == SendPause <==> UiFor(s, true).icon == IcMediaPause)
      && (c != SendPause <==> c == StartPlayback(url))
  {
    ButtonFollowsIcon(s, true, Some(url));
  }
}
