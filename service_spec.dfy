/** The playback service as a state machine over values: what each command, decoder callback
    and focus change does to the service's observable state, and which session states it
    publishes. The class in PlayerService is proved to follow these functions. */
module ServiceSpec {
  import opened Wrappers
  import opened Text
  import opened Platform
  import opened Notifications

  /** AudioManager focus-change codes. */
  const AUDIOFOCUS_GAIN := 1
  const AUDIOFOCUS_LOSS := -1
  const AUDIOFOCUS_LOSS_TRANSIENT := -2
  const AUDIOFOCUS_LOSS_TRANSIENT_CAN_DUCK := -3

  const MSG_CANNOT_PLAY := "Cannot play this link. Check URL or network."
  const MSG_INTERNAL_ERROR := "Player internal error. Please try again."
  const MSG_COMPLETED := "Playback completed"
  const PLAYBACK_ERROR_PREFIX := "Playback error: "

  /** How configuring a new player for a URL ends: `setDataSource`/`prepareAsync` return, or
      throw IOException, or throw IllegalStateException (decided by the platform). */
  datatype DataSourceResult = SourceAccepted | SourceIOException | SourceIllegalState

  /** The service's current MediaPlayer, if any. A released player is never current in the
      service as corrected (see PlayTrackAsWritten). */
  datatype PlayerView =
    | NoPlayer
    | Player(preparing: bool, playing: bool, ducked: bool, position: int)
    | ReleasedPlayer

  /** The observable state of the service. */
  datatype ServiceView = ServiceView(
    state: PlaybackState,            // the state last handed to the media session
    player: PlayerView,              // mediaPlayer
    trackUrl: Option<string>,        // currentTrackUrl
    focusHeld: bool,                 // audio focus granted and not abandoned
    sessionActive: bool,             // mediaSession.isActive
    foregroundFlag: bool,            // isForegroundService
    notification: NotificationStatus)

  /** The next view and the session states published on the way, in order. */
  datatype Transition = Transition(next: ServiceView, emitted: seq<Snapshot>)

  /** The service right after onCreate. */
  const InitialView := ServiceView(StateNone, NoPlayer, None, false, false, false, NoNotification)

  /** The service after stopTrack, whatever it was before. */
  const StoppedView := ServiceView(StateStopped, NoPlayer, None, false, false, false, NoNotification)

  /** The invariant every reachable view keeps: a player exists exactly while a track is
      current and the session is active; the track URL is never empty; focus is only held
      by an active session; without the foreground flag there is no notification. */
  ghost predicate Consistent(v: ServiceView) {
    && !v.player.ReleasedPlayer?
    && (v.player.Player? <==> v.trackUrl.Some?)
    && (v.sessionActive <==> v.trackUrl.Some?)
    && (v.trackUrl.Some? ==> v.trackUrl.value != "")
    && (v.focusHeld ==> v.sessionActive)
    && (!v.foregroundFlag ==> v.notification == NoNotification)
  }

  /** The session's state is the last state published, and every published state carries
      the fixed action mask and an error message only when it is an error. */
  ghost predicate Publishes(v: ServiceView, t: Transition) {
    && (t.emitted == [] ==> t.next.state == v.state)
    && (t.emitted != [] ==> t.emitted[|t.emitted| - 1].state == t.next.state)
    && (forall i :: 0 <= i < |t.emitted| ==> WellFormed(t.emitted[i]))
  }

  lemma InitialIsConsistent()
    ensures Consistent(InitialView) && Consistent(StoppedView)
  {
  }

  /** The position the service publishes: the player's, or unknown without a player. */
  function PositionOf(p: PlayerView): Option<int>
    requires !p.ReleasedPlayer?
  {
    if p.Player? then Some(p.position) else None
  }

  /** The notification status after updatePlaybackState(s): reposted with the rendering of
      `s` exactly when the foreground flag is set and `s` is neither STOPPED nor NONE. */
  function NotificationAfterUpdate(n: NotificationStatus, foregroundFlag: bool, s: PlaybackState): (r: NotificationStatus)
    ensures foregroundFlag && s != StateStopped && s != StateNone ==> r.Shown() == Some(BuildNotification(s))
    ensures !(foregroundFlag && s != StateStopped && s != StateNone) ==> r == n
    ensures r.Foreground? <==> n.Foreground?
  {
    if foregroundFlag && s != StateStopped && s != StateNone then Notify(n, BuildNotification(s)) else n
  }

  /** updatePlaybackState(s, msg): publish one snapshot, then maybe repost the notification. */
  function Publish(v: ServiceView, s: PlaybackState, msg: Option<string>): (t: Transition)
    requires !v.player.ReleasedPlayer?
    ensures |t.emitted| == 1 && WellFormed(t.emitted[0])
    ensures t.emitted[0].state == s && t.emitted[0].position == PositionOf(v.player)
    ensures t.emitted[0].errorMessage == (if s == StateError then msg else None)
    ensures t.next == v.(state := s, notification := t.next.notification)
    ensures t.next.notification == (if v.foregroundFlag && s != StateStopped && s != StateNone then Notify(v.notification, BuildNotification(s)) else v.notification)
  {
    Transition(
      v.(state := s, notification := NotificationAfterUpdate(v.notification, v.foregroundFlag, s)),
      [BuildSnapshot(s, PositionOf(v.player), msg)])
  }

  /** A player fresh from `MediaPlayer()` that has been handed a data source. */
  function FreshPlayer(source: DataSourceResult): PlayerView {
    Player(source == SourceAccepted, false, false, 0)
  }

  /** The part of playTrack inside the `try`: publish BUFFERING, or on a failing data source
      publish ERROR with the exception's fixed message and abandon focus. `armed` is the
      service with the session active, the URL recorded and the old player released. */
  function ConfigureAndPublish(armed: ServiceView, source: DataSourceResult): (t: Transition)
    requires !armed.player.ReleasedPlayer?
    ensures |t.emitted| == 1 && t.emitted[0].position == PositionOf(armed.player)
    ensures t.emitted[0].state == (if source == SourceAccepted then StateBuffering else StateError)
    ensures source == SourceAccepted ==> t.emitted[0].errorMessage == None
    ensures source == SourceIOException ==> t.emitted[0].errorMessage == Some(MSG_CANNOT_PLAY)
    ensures source == SourceIllegalState ==> t.emitted[0].errorMessage == Some(MSG_INTERNAL_ERROR)
    ensures t.next.focusHeld == (armed.focusHeld && source == SourceAccepted)
    ensures t.next == armed.(state := t.emitted[0].state, notification := t.next.notification, focusHeld := t.next.focusHeld)
  {
    match source
    case SourceAccepted => Publish(armed, StateBuffering, None)
    case SourceIOException =>
      var t := Publish(armed, StateError, Some(MSG_CANNOT_PLAY));
      Transition(t.next.(focusHeld := false), t.emitted)
    case SourceIllegalState =>
      var t := Publish(armed, StateError, Some(MSG_INTERNAL_ERROR));
      Transition(t.next.(focusHeld := false), t.emitted)
  }

  /** playTrack(url). An empty URL or a refused focus request changes nothing and publishes
      nothing; otherwise the session becomes active, the URL becomes current, the old player
      is released and a fresh one configured, and BUFFERING, or ERROR with the failure's
      message and focus abandoned, is published. As corrected: the publish happens while the
      service holds no player (see PlayTrackAsWritten). */
  function AfterPlay(v: ServiceView, url: string, focusGranted: bool, source: DataSourceResult): (t: Transition)
    requires Consistent(v)
    ensures Consistent(t.next) && Publishes(v, t)
    ensures url == "" || !focusGranted ==> t == Transition(v, [])
    ensures url != "" && focusGranted ==>
      && t.next.sessionActive && t.next.trackUrl == Some(url)
      && t.next.player == FreshPlayer(source)
      && t.next.foregroundFlag == v.foregroundFlag
      && t.next.focusHeld == (source == SourceAccepted)
      && |t.emitted| == 1 && t.emitted[0].position == None
      && t.next.notification == (if v.foregroundFlag then Notify(v.notification, BuildNotification(t.emitted[0].state)) else v.notification)
      && t.emitted[0].state == (if source == SourceAccepted then StateBuffering else StateError)
      && (source == SourceIOException ==> t.emitted[0].errorMessage == Some(MSG_CANNOT_PLAY))
      && (source == SourceIllegalState ==> t.emitted[0].errorMessage == Some(MSG_INTERNAL_ERROR))
      && (source == SourceAccepted ==> t.emitted[0].errorMessage == None)
  {
    if url == "" || !focusGranted then Transition(v, [])
    else
      var armed := v.(focusHeld := true, sessionActive := true, trackUrl := Some(url), player := NoPlayer);
      var t := ConfigureAndPublish(armed, source);
      Transition(t.next.(player := FreshPlayer(source)), t.emitted)
  }

  /** pauseTrack(): pause the player if it plays, publish PAUSED, detach the notification and
      set the foreground flag. The notification is PAUSED's rendering exactly when the flag was
      set before the call; otherwise there is none. */
  function AfterPause(v: ServiceView): (t: Transition)
    requires Consistent(v)
    ensures Consistent(t.next) && Publishes(v, t)
    ensures t.next.state == StatePaused && t.next.foregroundFlag
    ensures t.next.notification == if v.foregroundFlag then Detached(BuildNotification(StatePaused)) else NoNotification
    ensures t.next.player.Player? ==> !t.next.player.playing
    ensures v.player.Player? ==> t.next.player == v.player.(playing := false)
    ensures !v.player.Player? ==> t.next.player == v.player
    ensures t.next == v.(state := StatePaused, player := t.next.player, foregroundFlag := true, notification := t.next.notification)
    ensures t.emitted == [BuildSnapshot(StatePaused, PositionOf(v.player), None)]
  {
    var paused := v.(player := if v.player.Player? then v.player.(playing := false) else v.player);
    var t := Publish(paused, StatePaused, None);
    Transition(t.next.(notification := StopForeground(t.next.notification, false), foregroundFlag := true), t.emitted)
  }

  /** stopTrack(): from any state, no player, no track, focus abandoned, session inactive,
      STOPPED published (with an unknown position), notification removed, flag cleared. */
  function AfterStop(v: ServiceView): (t: Transition)
    requires Consistent(v)
    ensures Consistent(t.next) && Publishes(v, t)
    ensures t.next == StoppedView
    ensures t.emitted == [BuildSnapshot(StateStopped, None, None)]
  {
    var cleared := v.(player := NoPlayer, trackUrl := None, focusHeld := false, sessionActive := false);
    var t := Publish(cleared, StateStopped, None);
    Transition(t.next.(notification := StopForeground(t.next.notification, true), foregroundFlag := false), t.emitted)
  }

  /** Stopping twice ends where stopping once does. */
  lemma StopIsIdempotent(v: ServiceView)
    requires Consistent(v)
    ensures AfterStop(AfterStop(v).next).next == AfterStop(v).next
  {
  }

  /** onPrepared(mp): start `mp` (the current player when `handedCurrent`, otherwise some other
      player object or none), publish PLAYING and put the notification in the foreground.
      Nothing checks which player was prepared: PLAYING is published either way. */
  function AfterPrepared(v: ServiceView, handedCurrent: bool): (t: Transition)
    requires Consistent(v)
    ensures Consistent(t.next) && Publishes(v, t)
    ensures t.next.state == StatePlaying && t.next.foregroundFlag
    ensures t.next.notification == Foreground(BuildNotification(StatePlaying))
    ensures t.next.trackUrl == v.trackUrl && t.next.focusHeld == v.focusHeld && t.next.sessionActive == v.sessionActive
    ensures t.next.player == if handedCurrent && v.player.Player? then v.player.(preparing := false, playing := true) else v.player
    ensures t.emitted == [BuildSnapshot(StatePlaying, PositionOf(t.next.player), None)]
  {
    var started := v.(player := if handedCurrent && v.player.Player? then v.player.(preparing := false, playing := true) else v.player);
    var t := Publish(started, StatePlaying, None);
    Transition(t.next.(notification := Foreground(BuildNotification(StatePlaying)), foregroundFlag := true), t.emitted)
  }

  /** onCompletion(mp): publish STOPPED (the "Playback completed" message is dropped, since it
      is not an error state), detach the notification, set the flag; the track, the player,
      focus and the active session are all kept, so a later play replays the track. */
  function AfterCompletion(v: ServiceView): (t: Transition)
    requires Consistent(v)
    ensures Consistent(t.next) && Publishes(v, t)
    ensures t.next == v.(state := StateStopped, foregroundFlag := true, notification := StopForeground(v.notification, false))
    ensures t.emitted == [BuildSnapshot(StateStopped, PositionOf(v.player), None)]
    ensures t.emitted[0].errorMessage == None
  {
    var t := Publish(v, StateStopped, Some(MSG_COMPLETED));
    Transition(t.next.(notification := StopForeground(t.next.notification, false), foregroundFlag := true), t.emitted)
  }

  /** The engine moving the player that reports completion to PlaybackCompleted, where it no
      longer plays; this happens before onCompletion runs. */
  function EngineFinished(v: ServiceView, handedCurrent: bool): (w: ServiceView)
    requires Consistent(v)
    ensures Consistent(w)
    ensures w == v.(player := w.player) && (w.player.Player? <==> v.player.Player?)
    ensures handedCurrent && w.player.Player? ==> !w.player.playing
    ensures !handedCurrent ==> w == v
    ensures handedCurrent && v.player.Player? ==> w.player == v.player.(playing := false)
  {
    if handedCurrent && v.player.Player? then v.(player := v.player.(playing := false)) else v
  }

  /** A completed track leaves the session reporting STOPPED while it stays active, with its
      track, its player and whatever audio focus it held. */
  lemma CompletedSessionStaysActive(v: ServiceView)
    requires Consistent(v) && v.trackUrl.Some?
    ensures var c := AfterCompletion(EngineFinished(v, true)).next;
      && c.state == StateStopped && c.sessionActive && c.player.Player? && !c.player.playing
      && c.focusHeld == v.focusHeld && c.trackUrl == v.trackUrl
  {
  }

  /** The message onError publishes: "Playback error: <what>, <extra>". */
  function PlaybackErrorMessage(what: int, extra: int): string {
    PLAYBACK_ERROR_PREFIX + IntToString(what) + ", " + IntToString(extra)
  }

  /** Reads the two codes back out of an onError message. */
  function DecodePlaybackError(msg: string): Option<(int, int)> {
    if !(PLAYBACK_ERROR_PREFIX <= msg) then None
    else
      var rest := msg[|PLAYBACK_ERROR_PREFIX|..];
      var k := IndexOf(rest, ',');
      if k + 2 <= |rest| && rest[k..k + 2] == ", " then Some((ParseInt(rest[..k]), ParseInt(rest[k + 2..])))
      else None
  }

  /** The error message carries both engine codes recoverably. */
  lemma PlaybackErrorMessageRoundTrip(what: int, extra: int)
    ensures DecodePlaybackError(PlaybackErrorMessage(what, extra)) == Some((what, extra))
  {
    var a, b := IntToString(what), IntToString(extra);
    var msg := PlaybackErrorMessage(what, extra);
    assert msg == PLAYBACK_ERROR_PREFIX + (a + ", " + b);
    var rest := msg[|PLAYBACK_ERROR_PREFIX|..];
    assert rest == a + ", " + b;
    assert rest[|a|] == ',';
    assert forall j :: 0 <= j < |a| ==> rest[j] == a[j] && a[j] != ',';
    var k := IndexOf(rest, ',');
    assert k == |a|;
    assert rest[..k] == a;
    assert rest[k..k + 2] == ", ";
    assert rest[k + 2..] == b;
    IntToStringRoundTrip(what);
    IntToStringRoundTrip(extra);
  }

  /** onError(mp, what, extra): publish ERROR with "Playback error: what, extra", then run
      stopTrack, so the service always rests in STOPPED. */
  function AfterError(v: ServiceView, what: int, extra: int): (t: Transition)
    requires Consistent(v)
    ensures Consistent(t.next) && Publishes(v, t)
    ensures t.next == StoppedView
    ensures t.emitted == [BuildSnapshot(StateError, PositionOf(v.player), Some(PlaybackErrorMessage(what, extra))),
                          BuildSnapshot(StateStopped, None, None)]
  {
    var t1 := Publish(v, StateError, Some(PlaybackErrorMessage(what, extra)));
    var t2 := AfterStop(t1.next);
    Transition(t2.next, t1.emitted + t2.emitted)
  }

  /** Every engine error reaches the session's subscribers with both codes, even though the
      service then rests in STOPPED. */
  lemma EngineErrorIsReported(v: ServiceView, what: int, extra: int)
    requires Consistent(v)
    ensures var t := AfterError(v, what, extra);
      && t.emitted[0].state == StateError
      && t.emitted[0].errorMessage.Some?
      && DecodePlaybackError(t.emitted[0].errorMessage.value) == Some((what, extra))
      && t.next.state == StateStopped
  {
    PlaybackErrorMessageRoundTrip(what, extra);
  }

  /** The volume change on the current player, if any: ducked (0.3) or full (1.0). */
  function WithVolume(p: PlayerView, ducked: bool): PlayerView {
    if p.Player? then p.(ducked := ducked) else p
  }

  /** onAudioFocusChange(code): the two losses pause exactly as pauseTrack does; CAN_DUCK and
      GAIN only change the player's volume and publish nothing; any other code changes nothing. */
  function AfterFocusChange(v: ServiceView, code: int): (t: Transition)
    requires Consistent(v)
    ensures Consistent(t.next) && Publishes(v, t)
    ensures code == AUDIOFOCUS_LOSS || code == AUDIOFOCUS_LOSS_TRANSIENT ==> t == AfterPause(v)
    ensures code == AUDIOFOCUS_LOSS_TRANSIENT_CAN_DUCK || code == AUDIOFOCUS_GAIN ==>
      && t.emitted == [] && t.next.state == v.state
      && t.next == v.(player := t.next.player)
      && (t.next.player.Player? <==> v.player.Player?)
      && (t.next.player.Player? ==> t.next.player.ducked == (code == AUDIOFOCUS_LOSS_TRANSIENT_CAN_DUCK))
      && (v.player.Player? ==> t.next.player == v.player.(ducked := code == AUDIOFOCUS_LOSS_TRANSIENT_CAN_DUCK))
      && (!v.player.Player? ==> t.next.player == v.player)
    ensures code !in {AUDIOFOCUS_LOSS, AUDIOFOCUS_LOSS_TRANSIENT, AUDIOFOCUS_LOSS_TRANSIENT_CAN_DUCK, AUDIOFOCUS_GAIN} ==>
      t == Transition(v, [])
  {
    if code == AUDIOFOCUS_LOSS || code == AUDIOFOCUS_LOSS_TRANSIENT then AfterPause(v)
    else if code == AUDIOFOCUS_LOSS_TRANSIENT_CAN_DUCK then Transition(v.(player := WithVolume(v.player, true)), [])
    else if code == AUDIOFOCUS_GAIN then Transition(v.(player := WithVolume(v.player, false)), [])
    else Transition(v, [])
  }

  /** The media-session onPlay callback: replay the current track, or do nothing without one. */
  function AfterSessionPlay(v: ServiceView, focusGranted: bool, source: DataSourceResult): (t: Transition)
    requires Consistent(v)
    ensures Consistent(t.next) && Publishes(v, t)
    ensures v.trackUrl.None? ==> t == Transition(v, [])
    ensures v.trackUrl.Some? ==> t == AfterPlay(v, v.trackUrl.value, focusGranted, source)
  {
    match v.trackUrl
    case None => Transition(v, [])
    case Some(url) => AfterPlay(v, url, focusGranted, source)
  }

  /** A completed track stays current: the session's play command replays it from a fresh
      player, while after a stop the same command does nothing. */
  lemma CompletionKeepsTrackForReplay(v: ServiceView, focusGranted: bool, source: DataSourceResult)
    requires Consistent(v) && v.trackUrl.Some?
    ensures var c := AfterCompletion(v).next;
      && c.trackUrl == v.trackUrl
      && AfterSessionPlay(c, focusGranted, source) == AfterPlay(c, v.trackUrl.value, focusGranted, source)
      && AfterSessionPlay(AfterStop(v).next, focusGranted, source) == Transition(StoppedView, [])
  {
  }

  /** The inputs the service serialises. */
  datatype Event =
    | PlayTrack(url: string, focusGranted: bool, source: DataSourceResult)
    | SessionPlay(focusGranted: bool, source: DataSourceResult)
    | PauseTrack
    | StopTrack
    | Prepared(handedCurrent: bool)
    | Completion(handedCurrent: bool)
    | EngineError(what: int, extra: int)
    | FocusChange(code: int)

  function Step(v: ServiceView, e: Event): (t: Transition)
    requires Consistent(v)
    ensures Consistent(t.next) && Publishes(v, t)
  {
    match e
    case PlayTrack(url, granted, source) => AfterPlay(v, url, granted, source)
    case SessionPlay(granted, source) => AfterSessionPlay(v, granted, source)
    case PauseTrack => AfterPause(v)
    case StopTrack => AfterStop(v)
    case Prepared(current) => AfterPrepared(v, current)
    case Completion(current) => AfterCompletion(EngineFinished(v, current))
    case EngineError(what, extra) => AfterError(v, what, extra)
    case FocusChange(code) => AfterFocusChange(v, code)
  }

  /** Feeds the events in order; the snapshots published are concatenated in order. */
  function Run(v: ServiceView, events: seq<Event>): (t: Transition)
    requires Consistent(v)
    ensures Consistent(t.next)
    decreases |events|
  {
    if events == [] then Transition(v, [])
    else
      var first := Step(v, events[0]);
      var rest := Run(first.next, events[1..]);
      Transition(rest.next, first.emitted + rest.emitted)
  }

  /** Two transitions in a row publish as one. */
  lemma ChainPublishes(v: ServiceView, first: Transition, rest: Transition)
    requires Publishes(v, first) && Publishes(first.next, rest)
    ensures Publishes(v, Transition(rest.next, first.emitted + rest.emitted))
  {
    var all := first.emitted + rest.emitted;
    forall i | 0 <= i < |all| ensures WellFormed(all[i]) {
      if i < |first.emitted| {
        assert all[i] == first.emitted[i];
      } else {
        assert all[i] == rest.emitted[i - |first.emitted|];
      }
    }
    if rest.emitted != [] {
      assert all[|all| - 1] == rest.emitted[|rest.emitted| - 1];
    } else {
      assert all == first.emitted;
    }
  }

  /** Along any sequence of events the session's state is the last state published and every
      published state is well formed. */
  lemma {:induction false} RunPublishes(v: ServiceView, events: seq<Event>)
    requires Consistent(v)
    ensures Publishes(v, Run(v, events))
    decreases |events|
  {
    if events != [] {
      var first := Step(v, events[0]);
      var rest := Run(first.next, events[1..]);
      RunPublishes(first.next, events[1..]);
      ChainPublishes(v, first, rest);
    }
  }

  /** Running a sequence and then one more event is running the longer sequence. */
  lemma {:induction false} RunSnoc(v: ServiceView, events: seq<Event>, e: Event)
    requires Consistent(v)
    ensures var r := Run(v, events); var s := Step(r.next, e);
      Run(v, events + [e]) == Transition(s.next, r.emitted + s.emitted)
    decreases |events|
  {
    if events == [] {
      assert [] + [e] == [e];
      assert [e][1..] == [];
    } else {
      var first := Step(v, events[0]);
      assert (events + [e])[0] == events[0];
      assert (events + [e])[1..] == events[1..] + [e];
      RunSnoc(first.next, events[1..], e);
      var rest := Run(first.next, events[1..]);
      var s := Step(rest.next, e);
      assert Run(v, events + [e]) == Transition(s.next, first.emitted + (rest.emitted + s.emitted));
      assert first.emitted + (rest.emitted + s.emitted) == (first.emitted + rest.emitted) + s.emitted;
    }
  }

  /** Whatever happened before, a stop leaves the service in the stopped view, with STOPPED as
      the last state published. */
  lemma StopAfterAnything(v: ServiceView, events: seq<Event>)
    requires Consistent(v)
    ensures var t := Run(v, events + [StopTrack]);
      t.next == StoppedView && t.emitted != [] && t.emitted[|t.emitted| - 1] == BuildSnapshot(StateStopped, None, None)
  {
    RunSnoc(v, events, StopTrack);
  }

  // ---- playTrack as written ----

  datatype EngineException = IllegalStateException

  /** Reading the position of the player the field holds: a released MediaPlayer throws
      IllegalStateException. */
  function FieldPosition(p: PlayerView): Result<Option<int>, EngineException> {
    match p
    case NoPlayer => Success(None)
    case Player(_, _, _, position) => Success(Some(position))
    case ReleasedPlayer => Failure(IllegalStateException)
  }

  datatype PlayOutcome = Returned(t: Transition) | ThrewIllegalState(partial: ServiceView)

  /** playTrack(url) as written. The new player is configured inside a scope function whose
      result is stored in the field only afterwards, so the `try` block, and updatePlaybackState
      with it, runs while the field still holds the player just released, and the publish reads
      that player's position. With no previous player this is the corrected playTrack. With one,
      the read throws: from the `try` block it reaches the IllegalStateException handler, which
      publishes, reads and throws again (and from the IOException handler it throws at once), so
      playTrack fails after the session was activated, the URL recorded and focus taken, and with
      the released player left as the current one. */
  function PlayTrackAsWritten(v: ServiceView, url: string, focusGranted: bool, source: DataSourceResult): (o: PlayOutcome)
    requires Consistent(v)
    ensures url == "" || !focusGranted || v.player.NoPlayer? ==> o == Returned(AfterPlay(v, url, focusGranted, source))
    ensures url != "" && focusGranted && v.player.Player? ==>
      o.ThrewIllegalState? && o.partial.player == ReleasedPlayer && !Consistent(o.partial)
      && o.partial.trackUrl == Some(url) && o.partial.sessionActive && o.partial.focusHeld
      && o.partial.state == v.state
  {
    if url == "" || !focusGranted then Returned(Transition(v, []))
    else
      var field := if v.player.NoPlayer? then NoPlayer else ReleasedPlayer;
      var armed := v.(focusHeld := true, sessionActive := true, trackUrl := Some(url), player := field);
      match FieldPosition(field)
      case Failure(_) => ThrewIllegalState(armed)
      case Success(_) =>
        var t := ConfigureAndPublish(armed.(player := NoPlayer), source);
        Returned(Transition(t.next.(player := FreshPlayer(source)), t.emitted))
  }

  /** Pausing and then playing again, the most common second play, throws as written. */
  lemma ResumeAfterPauseThrowsAsWritten(url: string)
    requires url != ""
    ensures var playing := AfterPrepared(AfterPlay(InitialView, url, true, SourceAccepted).next, true).next;
      PlayTrackAsWritten(AfterPause(playing).next, url, true, SourceAccepted).ThrewIllegalState?
  {
  }

  /** As corrected, the same second play rebuffers the track from a fresh player. */
  lemma ResumeAfterPauseRebuffers(url: string)
    requires url != ""
    ensures var playing := AfterPrepared(AfterPlay(InitialView, url, true, SourceAccepted).next, true).next;
      var t := AfterPlay(AfterPause(playing).next, url, true, SourceAccepted);
      t.next.state == StateBuffering && t.next.player == FreshPlayer(SourceAccepted) && Consistent(t.next)
  {
  }
}
