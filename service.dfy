/** The playback service as an object: the class keeps the fields the Android service keeps
    and mirrors the platform objects it drives (the media player, the media session, the
    audio focus and the notification). Every method is proved to move the service exactly as
    the matching function of ServiceSpec says and to append that function's published
    states to the session's log. */
module PlayerService {
  import opened Wrappers
  import opened Platform
  import opened Notifications
  import opened ServiceSpec

  /** The platform's MediaPlayer, reduced to the state the service reads or changes. */
  class MediaPlayer {
    var preparing: bool
    var playing: bool
    var ducked: bool
    var released: bool
    var position: int

    /** `MediaPlayer()`: idle, at the start, full volume. */
    constructor ()
      ensures !preparing && !playing && !ducked && !released && position == 0
    {
      preparing, playing, ducked, released, position := false, false, false, false, 0;
    }

    /** `prepareAsync()` after an accepted data source. */
    method PrepareAsync()
      modifies this
      ensures preparing && playing == old(playing) && ducked == old(ducked)
      ensures released == old(released) && position == old(position)
    {
      preparing := true;
    }

    /** `start()`. */
    method Start()
      modifies this
      ensures !preparing && playing && ducked == old(ducked)
      ensures released == old(released) && position == old(position)
    {
      preparing, playing := false, true;
    }

    /** `pause()`. */
    method Pause()
      modifies this
      ensures !playing && preparing == old(preparing) && ducked == old(ducked)
      ensures released == old(released) && position == old(position)
    {
      playing := false;
    }

    /** `stop()`. */
    method Stop()
      modifies this
      ensures !playing && !preparing && ducked == old(ducked)
      ensures released == old(released) && position == old(position)
    {
      preparing, playing := false, false;
    }

    /** `release()`: the object is unusable afterwards. */
    method Release()
      modifies this
      ensures released && !playing && !preparing
      ensures ducked == old(ducked) && position == old(position)
    {
      released, preparing, playing := true, false, false;
    }

    /** setVolume: the ducked level when `duck`, full volume otherwise. */
    method SetVolume(duck: bool)
      modifies this
      ensures ducked == duck && preparing == old(preparing) && playing == old(playing)
      ensures released == old(released) && position == old(position)
    {
      ducked := duck;
    }

    /** The engine reaching the end of the stream (PlaybackCompleted). */
    method FinishPlayback()
      modifies this
      ensures !playing && preparing == old(preparing) && ducked == old(ducked)
      ensures released == old(released) && position == old(position)
    {
      playing := false;
    }
  }

  /** The view ServiceSpec reasons about of the service's `mediaPlayer` field. */
  function PlayerViewOf(p: MediaPlayer?): (r: PlayerView)
    reads p
    ensures r.NoPlayer? <==> p == null
    ensures r.ReleasedPlayer? <==> p != null && p.released
  {
    if p == null then NoPlayer
    else if p.released then ReleasedPlayer
    else Player(p.preparing, p.playing, p.ducked, p.position)
  }

  /** The session's log agrees with its current state: NONE before anything was published,
      else the state last published; and every published state is well formed. */
  ghost predicate LogAgrees(log: seq<Snapshot>, state: PlaybackState) {
    && (log == [] ==> state == StateNone)
    && (log != [] ==> log[|log| - 1].state == state)
    && (forall i :: 0 <= i < |log| ==> WellFormed(log[i]))
  }

  /** Appending the states a transition publishes keeps the log in agreement. */
  lemma AppendKeepsLogAgreement(log: seq<Snapshot>, v: ServiceView, t: Transition)
    requires LogAgrees(log, v.state) && Publishes(v, t)
    ensures LogAgrees(log + t.emitted, t.next.state)
  {
    var all := log + t.emitted;
    forall i | 0 <= i < |all| ensures WellFormed(all[i]) {
      if i < |log| {
        assert all[i] == log[i];
      } else {
        assert all[i] == t.emitted[i - |log|];
      }
    }
    if t.emitted != [] {
      assert all[|all| - 1] == t.emitted[|t.emitted| - 1];
    } else {
      assert all == log;
    }
  }

  class AudioPlayerService {
    var mediaPlayer: MediaPlayer?
    var currentTrackUrl: Option<string>
    var isForegroundService: bool
    /** Platform state the service drives: the media session's state and activity, the audio
        focus, the notification, and the requests to stop the service and release the session. */
    var sessionState: PlaybackState
    var sessionActive: bool
    ghost var published: seq<Snapshot>
    ghost var focusHeld: bool
    ghost var notification: NotificationStatus
    ghost var stopSelfRequested: bool
    ghost var sessionReleased: bool

    ghost function View(): ServiceView
      reads this, mediaPlayer
    {
      ServiceView(sessionState, PlayerViewOf(mediaPlayer), currentTrackUrl, focusHeld, sessionActive,
                  isForegroundService, notification)
    }

    ghost predicate Valid()
      reads this, mediaPlayer
    {
      Consistent(View()) && LogAgrees(published, sessionState)
    }

    /** onCreate: a fresh session with nothing published and no player. */
    constructor ()
      ensures Valid() && View() == InitialView && published == []
      ensures !stopSelfRequested && !sessionReleased
    {
      mediaPlayer := null;
      currentTrackUrl := None;
      isForegroundService := false;
      sessionState := StateNone;
      sessionActive := false;
      published := [];
      focusHeld := false;
      notification := NoNotification;
      stopSelfRequested := false;
      sessionReleased := false;
    }

    /** isPlaying(): the current player is playing; false without one. */
    function IsPlaying(): (r: bool)
      reads this, mediaPlayer
      ensures r <==> PlayerViewOf(mediaPlayer).Player? && PlayerViewOf(mediaPlayer).playing
      ensures r ==> currentTrackUrl.Some? || !Consistent(View())
    {
      mediaPlayer != null && !mediaPlayer.released && mediaPlayer.playing
    }

    /** updatePlaybackState(s, msg). */
    method UpdatePlaybackState(s: PlaybackState, errorMessage: Option<string>)
      requires mediaPlayer == null || !mediaPlayer.released
      modifies this
      ensures var t := Publish(old(View()), s, errorMessage);
        View() == t.next && published == old(published) + t.emitted
      ensures mediaPlayer == old(mediaPlayer)
      ensures stopSelfRequested == old(stopSelfRequested) && sessionReleased == old(sessionReleased)
    {
      var position := if mediaPlayer == null then None else Some(mediaPlayer.position);
      sessionState := s;
      published := published + [BuildSnapshot(s, position, errorMessage)];
      if isForegroundService && s != StateStopped && s != StateNone {
        notification := Notify(notification, BuildNotification(s));
      }
    }

    /** abandonAudioFocus(). */
    method AbandonAudioFocus()
      modifies this
      ensures !focusHeld
      ensures mediaPlayer == old(mediaPlayer) && currentTrackUrl == old(currentTrackUrl)
      ensures isForegroundService == old(isForegroundService) && sessionState == old(sessionState)
      ensures sessionActive == old(sessionActive) && published == old(published)
      ensures notification == old(notification)
      ensures stopSelfRequested == old(stopSelfRequested) && sessionReleased == old(sessionReleased)
    {
      focusHeld := false;
    }

    /** playTrack(url), with the focus request's answer and the data source's outcome supplied
        by the platform. The previous player is released and the field cleared before the new
        player is configured and the state published; the new player is stored last. */
    method PlayTrack(url: string, focusGranted: bool, source: DataSourceResult)
      requires Valid()
      modifies this, mediaPlayer
      ensures Valid()
      ensures var t := AfterPlay(old(View()), url, focusGranted, source);
        View() == t.next && published == old(published) + t.emitted
      ensures url != "" && focusGranted ==> fresh(mediaPlayer) && (old(mediaPlayer) != null ==> old(mediaPlayer).released)
      ensures url == "" || !focusGranted ==> mediaPlayer == old(mediaPlayer)
      ensures stopSelfRequested == old(stopSelfRequested) && sessionReleased == old(sessionReleased)
    {
      if url == "" {
        return;
      }
      if !focusGranted {
        return;
      }
      focusHeld := true;
      sessionActive := true;
      currentTrackUrl := Some(url);
      if mediaPlayer != null {
        mediaPlayer.Release();
      }
      mediaPlayer := null;
      ghost var armed := View();
      ghost var log := published;
      var player := new MediaPlayer();
      match source {
        case SourceAccepted =>
          player.PrepareAsync();
          UpdatePlaybackState(StateBuffering, None);
        case SourceIOException =>
          UpdatePlaybackState(StateError, Some(MSG_CANNOT_PLAY));
          AbandonAudioFocus();
        case SourceIllegalState =>
          UpdatePlaybackState(StateError, Some(MSG_INTERNAL_ERROR));
          AbandonAudioFocus();
      }
      assert published == log + ConfigureAndPublish(armed, source).emitted;
      mediaPlayer := player;
      AppendKeepsLogAgreement(old(published), old(View()), AfterPlay(old(View()), url, focusGranted, source));
    }

    /** pauseTrack(). */
    method PauseTrack()
      requires Valid()
      modifies this, mediaPlayer
      ensures Valid()
      ensures var t := AfterPause(old(View()));
        View() == t.next && published == old(published) + t.emitted
      ensures mediaPlayer == old(mediaPlayer)
      ensures stopSelfRequested == old(stopSelfRequested) && sessionReleased == old(sessionReleased)
    {
      if mediaPlayer != null && mediaPlayer.playing {
        mediaPlayer.Pause();
      }
      UpdatePlaybackState(StatePaused, None);
      notification := StopForeground(notification, false);
      isForegroundService := true;
      AppendKeepsLogAgreement(old(published), old(View()), AfterPause(old(View())));
    }

    /** stopTrack(). */
    method StopTrack()
      requires Valid()
      modifies this, mediaPlayer
      ensures Valid()
      ensures var t := AfterStop(old(View()));
        View() == t.next && published == old(published) + t.emitted
      ensures View() == StoppedView && mediaPlayer == null
      ensures old(mediaPlayer) != null ==> old(mediaPlayer).released
      ensures stopSelfRequested == old(stopSelfRequested) && sessionReleased == old(sessionReleased)
    {
      if mediaPlayer != null {
        mediaPlayer.Stop();
        mediaPlayer.Release();
      }
      mediaPlayer := null;
      currentTrackUrl := None;
      AbandonAudioFocus();
      sessionActive := false;
      UpdatePlaybackState(StateStopped, None);
      notification := StopForeground(notification, true);
      isForegroundService := false;
      AppendKeepsLogAgreement(old(published), old(View()), AfterStop(old(View())));
    }

    /** stopTrackAndService(): stopTrack, then ask the platform to stop the service. */
    method StopTrackAndService()
      requires Valid()
      modifies this, mediaPlayer
      ensures Valid()
      ensures var t := AfterStop(old(View()));
        View() == t.next && published == old(published) + t.emitted
      ensures stopSelfRequested && sessionReleased == old(sessionReleased)
    {
      StopTrack();
      stopSelfRequested := true;
    }

    /** onDestroy(): stopTrack, then release the media session. */
    method OnDestroy()
      requires Valid()
      modifies this, mediaPlayer
      ensures Valid()
      ensures var t := AfterStop(old(View()));
        View() == t.next && published == old(published) + t.emitted
      ensures sessionReleased && stopSelfRequested == old(stopSelfRequested)
    {
      StopTrack();
      sessionReleased := true;
    }

    /** onPrepared(mp): start `mp`, publish PLAYING, go to the foreground. The platform only
        calls back players that have not been released. */
    method OnPrepared(mp: MediaPlayer?)
      requires Valid()
      requires mp == null || !mp.released
      modifies this, mp
      ensures Valid()
      ensures var t := AfterPrepared(old(View()), mp != null && mp == old(mediaPlayer));
        View() == t.next && published == old(published) + t.emitted
      ensures mp != null ==> mp.playing
      ensures mediaPlayer == old(mediaPlayer)
      ensures stopSelfRequested == old(stopSelfRequested) && sessionReleased == old(sessionReleased)
    {
      if mp != null {
        mp.Start();
      }
      UpdatePlaybackState(StatePlaying, None);
      notification := Foreground(BuildNotification(StatePlaying));
      isForegroundService := true;
      AppendKeepsLogAgreement(old(published), old(View()), AfterPrepared(old(View()), mp != null && mp == old(mediaPlayer)));
    }

    /** onCompletion(mp): reported once the current player has finished playing. */
    method OnCompletion(mp: MediaPlayer?)
      requires Valid()
      requires mediaPlayer != null ==> !mediaPlayer.playing
      modifies this
      ensures Valid()
      ensures var t := AfterCompletion(old(View()));
        View() == t.next && published == old(published) + t.emitted
      ensures mediaPlayer == old(mediaPlayer)
      ensures stopSelfRequested == old(stopSelfRequested) && sessionReleased == old(sessionReleased)
    {
      UpdatePlaybackState(StateStopped, Some(MSG_COMPLETED));
      notification := StopForeground(notification, false);
      isForegroundService := true;
      AppendKeepsLogAgreement(old(published), old(View()), AfterCompletion(old(View())));
    }

    /** onError(mp, what, extra): report, clean up, and claim the error as handled. */
    method OnError(mp: MediaPlayer?, what: int, extra: int) returns (handled: bool)
      requires Valid()
      modifies this, mediaPlayer
      ensures Valid()
      ensures var t := AfterError(old(View()), what, extra);
        View() == t.next && published == old(published) + t.emitted
      ensures handled
      ensures stopSelfRequested == old(stopSelfRequested) && sessionReleased == old(sessionReleased)
    {
      UpdatePlaybackState(StateError, Some(PlaybackErrorMessage(what, extra)));
      assert LogAgrees(published, sessionState) by {
        var t := Publish(old(View()), StateError, Some(PlaybackErrorMessage(what, extra)));
        assert Publishes(old(View()), t);
        AppendKeepsLogAgreement(old(published), old(View()), t);
      }
      StopTrack();
      handled := true;
    }

    /** onAudioFocusChange(code). */
    method OnAudioFocusChange(code: int)
      requires Valid()
      modifies this, mediaPlayer
      ensures Valid()
      ensures var t := AfterFocusChange(old(View()), code);
        View() == t.next && published == old(published) + t.emitted
      ensures mediaPlayer == old(mediaPlayer)
      ensures stopSelfRequested == old(stopSelfRequested) && sessionReleased == old(sessionReleased)
    {
      if code == AUDIOFOCUS_LOSS {
        PauseTrack();
      } else if code == AUDIOFOCUS_LOSS_TRANSIENT {
        PauseTrack();
      } else if code == AUDIOFOCUS_LOSS_TRANSIENT_CAN_DUCK {
        if mediaPlayer != null {
          mediaPlayer.SetVolume(true);
        }
      } else if code == AUDIOFOCUS_GAIN {
        if mediaPlayer != null {
          mediaPlayer.SetVolume(false);
        }
      }
    }

    /** The media session's onPlay: replay the current track if there is one. */
    method OnPlay(focusGranted: bool, source: DataSourceResult)
      requires Valid()
      modifies this, mediaPlayer
      ensures Valid()
      ensures var t := AfterSessionPlay(old(View()), focusGranted, source);
        View() == t.next && published == old(published) + t.emitted
      ensures stopSelfRequested == old(stopSelfRequested) && sessionReleased == old(sessionReleased)
    {
      match currentTrackUrl {
        case Some(url) => PlayTrack(url, focusGranted, source);
        case None =>
      }
    }

    /** The media session's onPause. */
    method OnPause()
      requires Valid()
      modifies this, mediaPlayer
      ensures Valid()
      ensures var t := AfterPause(old(View()));
        View() == t.next && published == old(published) + t.emitted
      ensures stopSelfRequested == old(stopSelfRequested) && sessionReleased == old(sessionReleased)
    {
      PauseTrack();
    }

    /** The media session's onStop: stop the track and the service. */
    method OnStop()
      requires Valid()
      modifies this, mediaPlayer
      ensures Valid()
      ensures var t := AfterStop(old(View()));
        View() == t.next && published == old(published) + t.emitted
      ensures stopSelfRequested && sessionReleased == old(sessionReleased)
    {
      StopTrackAndService();
    }
  }
}
