/** The player screen: checking the typed link, choosing an audio stream, mapping the
    outcome of a fetch and the service's playback states to what the screen shows, and
    dispatching the play/pause and stop buttons to the service. */
module Activity {
  import opened Wrappers
  import opened Text
  import opened Platform

  const MSG_WELCOME := "Enter a YouTube video URL to start."
  const MSG_ENTER_URL := "Please enter a YouTube URL."
  const MSG_INVALID_URL := "Please enter a valid YouTube URL."
  const MSG_FETCHING := "Fetching audio info..."
  const MSG_NO_STREAMS := "No audio streams found."
  const MSG_READY := "Audio ready. Press Play."
  const MSG_NO_SUITABLE_STREAM := "Could not find a suitable audio stream."
  const MSG_RECAPTCHA := "Error: Video may be protected (ReCaptcha). Try another."
  const MSG_EXTRACTION := "Error: Could not extract audio. Invalid URL or video?"
  const MSG_NETWORK := "Network Error. Check connection and try again."
  const MSG_ERROR_PREFIX := "Error: "
  const MSG_FETCH_FAILED := "Failed to fetch audio."
  const MSG_PLAYING := "Playing"
  const MSG_BUFFERING := "Buffering..."
  const MSG_PAUSED := "Paused"
  const MSG_STOPPED := "Stopped. Fetch audio to play."
  const MSG_PLAYBACK_FAILED := "Error playing audio"
  const MSG_SERVICE_NOT_READY := "Service not ready."
  const MSG_NOTHING_LOADED := "No audio loaded. Fetch audio first."

  // ---- the link check ----

  /** A link names a YouTube video when it contains one of the two host paths, case-sensitively. */
  predicate IsYouTubeLink(url: string) {
    Contains(url, "youtube.com/") || Contains(url, "youtu.be/")
  }

  /** A link passes exactly when "youtube.com/" or "youtu.be/" occurs somewhere in it. */
  lemma YouTubeLinkIffHostOccurs(url: string)
    ensures IsYouTubeLink(url) <==> exists i: nat :: OccursAt(url, "youtube.com/", i) || OccursAt(url, "youtu.be/", i)
  {
    ContainsIffOccurs(url, "youtube.com/");
    ContainsIffOccurs(url, "youtu.be/");
  }

  datatype UrlCheck = EmptyUrl | NotYouTube | FetchUrl(url: string)

  /** The fetch button's check of the typed text: trimmed, then refused when empty or when it
      names no YouTube host, otherwise handed on trimmed. */
  function CheckUrl(input: string): (r: UrlCheck)
    ensures r.EmptyUrl? <==> AllSatisfy(input, IsKotlinWhitespace)
    ensures r.NotYouTube? <==> !AllSatisfy(input, IsKotlinWhitespace) && !IsYouTubeLink(Strip(input, IsKotlinWhitespace))
    ensures r.FetchUrl? ==> r.url == Strip(input, IsKotlinWhitespace) && r.url != [] && IsYouTubeLink(r.url)
    ensures r.FetchUrl? ==> !IsKotlinWhitespace(r.url[0]) && !IsKotlinWhitespace(r.url[|r.url| - 1])
  {
    var url := Strip(input, IsKotlinWhitespace);
    StripEmptyIffAllWhitespace(input, IsKotlinWhitespace);
    StripIdempotent(input, IsKotlinWhitespace);
    if url == [] then EmptyUrl
    else if !IsYouTubeLink(url) then NotYouTube
    else FetchUrl(url)
  }

  /** Surrounding blanks never change the check's verdict or the link it hands on. */
  lemma CheckUrlIgnoresPadding(pre: string, url: string, post: string)
    requires AllSatisfy(pre, IsKotlinWhitespace) && AllSatisfy(post, IsKotlinWhitespace)
    requires url != [] && !IsKotlinWhitespace(url[0]) && !IsKotlinWhitespace(url[|url| - 1])
    ensures CheckUrl(pre + url + post) == if IsYouTubeLink(url) then FetchUrl(url) else NotYouTube
  {
    StripOfPadded(pre, url, post, IsKotlinWhitespace);
    StripEmptyIffAllWhitespace(pre + url + post, IsKotlinWhitespace);
  }

  /** A short youtu.be link passes the check. */
  lemma ShortLinkIsAccepted(id: string)
    requires id != [] && !IsKotlinWhitespace(id[|id| - 1])
    ensures CheckUrl("https://youtu.be/" + id) == FetchUrl("https://youtu.be/" + id)
  {
    var url := "https://youtu.be/" + id;
    assert url[8..8 + |"youtu.be/"|] == "youtu.be/";
    ContainsAt(url, "youtu.be/", 8);
    assert AllSatisfy([], IsKotlinWhitespace);
    assert [] + url + [] == url;
    CheckUrlIgnoresPadding([], url, []);
  }

  // ---- choosing a stream ----

  /** An audio stream as the extractor lists it: its URL and the name of its format. */
  datatype AudioStream = AudioStream(url: string, formatName: string)

  predicate HasFormat(s: AudioStream, tag: string) {
    ContainsIgnoreCase(s.formatName, tag)
  }

  /** A stream has a format when the tag occurs in its format name, ignoring ASCII case. */
  lemma HasFormatIffFolded(s: AudioStream, tag: string)
    ensures HasFormat(s, tag) <==> exists i: nat :: FoldedAt(s.formatName, tag, i)
  {
    ContainsIgnoreCaseIffFolded(s.formatName, tag);
  }

  /** The index of the first stream whose format name contains `tag`, ignoring case. */
  function FirstWithFormat(streams: seq<AudioStream>, tag: string): (r: Option<nat>)
    ensures r.Some? ==> r.value < |streams| && HasFormat(streams[r.value], tag)
    ensures r.Some? ==> forall j :: 0 <= j < r.value ==> !HasFormat(streams[j], tag)
    ensures r.None? ==> forall j :: 0 <= j < |streams| ==> !HasFormat(streams[j], tag)
  {
    if streams == [] then None
    else if HasFormat(streams[0], tag) then Some(0)
    else match FirstWithFormat(streams[1..], tag)
      case None => None
      case Some(k) => Some(k + 1)
  }

  /** The stream the activity plays: the first Opus stream, else the first M4A stream, else
      the first stream; none only when the list is empty. */
  function ChooseStream(streams: seq<AudioStream>): (r: Option<nat>)
    ensures r.None? <==> streams == []
    ensures r.Some? ==> r.value < |streams|
    ensures (exists i :: 0 <= i < |streams| && HasFormat(streams[i], "opus")) ==>
      r.Some? && HasFormat(streams[r.value], "opus")
      && forall j :: 0 <= j < r.value ==> !HasFormat(streams[j], "opus")
    ensures ((forall i :: 0 <= i < |streams| ==> !HasFormat(streams[i], "opus"))
             && (exists i :: 0 <= i < |streams| && HasFormat(streams[i], "m4a"))) ==>
      r.Some? && HasFormat(streams[r.value], "m4a")
      && forall j :: 0 <= j < r.value ==> !HasFormat(streams[j], "m4a")
    ensures (forall i :: 0 <= i < |streams| ==> !HasFormat(streams[i], "opus") && !HasFormat(streams[i], "m4a")) ==>
      streams == [] || r == Some(0)
  {
    match FirstWithFormat(streams, "opus")
    case Some(i) => Some(i)
    case None =>
      match FirstWithFormat(streams, "m4a")
      case Some(i) => Some(i)
      case None => if streams == [] then None else Some(0)
  }

  /** Opus wins over M4A wherever the two appear in the list. */
  lemma OpusPreferredOverM4a(m4a: AudioStream, opus: AudioStream)
    requires HasFormat(opus, "opus") && !HasFormat(m4a, "opus")
    ensures ChooseStream([m4a, opus]) == Some(1)
  {
    assert [m4a, opus][1] == opus;
  }

  // ---- the outcome of a fetch ----

  /** How the background extraction ends: a stream list (possibly absent or empty), or one of
      the exceptions the activity tells apart, in the order its handlers test them. */
  datatype FetchOutcome =
    | StreamsFound(streams: Option<seq<AudioStream>>)
    | ReCaptchaFailure
    | ExtractionFailure
    | NetworkFailure
    | OtherFailure(localizedMessage: Option<string>)

  /** What the screen does once a fetch ends; `controls` is None when the controls' visibility
      is left alone, `playIcon` says whether the play/pause button is reset to play. */
  datatype FetchResolution = FetchResolution(
    status: string, streamUrl: Option<string>, controls: Option<bool>, playIcon: bool)

  function ResolveFetch(outcome: FetchOutcome): (r: FetchResolution)
    ensures r.streamUrl.Some? <==> outcome.StreamsFound? && outcome.streams.Some? && outcome.streams.value != []
    ensures r.streamUrl.Some? ==>
      var i := ChooseStream(outcome.streams.value).value;
      r.streamUrl.value == outcome.streams.value[i].url && r.status == MSG_READY && r.controls == Some(true) && r.playIcon
    ensures outcome.StreamsFound? && (outcome.streams.None? || outcome.streams.value == []) ==>
      r == FetchResolution(MSG_NO_STREAMS, None, None, false)
    ensures !outcome.StreamsFound? ==> r.controls == Some(false) && r.streamUrl == None && !r.playIcon
    ensures outcome.ReCaptchaFailure? ==> r.status == MSG_RECAPTCHA
    ensures outcome.ExtractionFailure? ==> r.status == MSG_EXTRACTION
    ensures outcome.NetworkFailure? ==> r.status == MSG_NETWORK
    ensures outcome.OtherFailure? ==> r.status == MSG_ERROR_PREFIX + outcome.localizedMessage.GetOr(MSG_FETCH_FAILED)
    ensures r.status != MSG_NO_SUITABLE_STREAM
  {
    match outcome
    case StreamsFound(streams) =>
      if streams.None? || streams.value == [] then FetchResolution(MSG_NO_STREAMS, None, None, false)
      else
        (match ChooseStream(streams.value)
         case Some(i) => FetchResolution(MSG_READY, Some(streams.value[i].url), Some(true), true)
         case None => FetchResolution(MSG_NO_SUITABLE_STREAM, None, None, false))
    case ReCaptchaFailure => FetchResolution(MSG_RECAPTCHA, None, Some(false), false)
    case ExtractionFailure => FetchResolution(MSG_EXTRACTION, None, Some(false), false)
    case NetworkFailure => FetchResolution(MSG_NETWORK, None, Some(false), false)
    case OtherFailure(m) =>
      var status := MSG_ERROR_PREFIX + m.GetOr(MSG_FETCH_FAILED);
      assert status[0] == 'E' && MSG_NO_SUITABLE_STREAM[0] == 'C';
      FetchResolution(status, None, Some(false), false)
  }

  // ---- the screen for a playback state ----

  datatype UiUpdate = UiUpdate(status: string, icon: Icon, controlsVisible: bool)

  /** updateUIFromPlaybackState: the text for the state, the pause icon exactly while playing or
      buffering, and the controls shown except when stopped (or idle) with nothing fetched.
      An error shows the session's message, or a fixed text without one. */
  function UiFor(s: Snapshot, hasStreamUrl: bool): (u: UiUpdate)
    ensures u.icon == IcMediaPause <==> s.state.IsActivePlayback()
    ensures u.icon == IcMediaPlay <==> !s.state.IsActivePlayback()
    ensures u.controlsVisible <==> hasStreamUrl || (s.state != StateStopped && s.state != StateNone)
    ensures s.state == StateError ==> u.status == s.errorMessage.GetOr(MSG_PLAYBACK_FAILED)
    ensures s.state != StateError ==> u.status in {MSG_PLAYING, MSG_BUFFERING, MSG_PAUSED, MSG_STOPPED}
    ensures s.state == StateBuffering ==> u.status == MSG_BUFFERING
    ensures s.state == StatePaused ==> u.status == MSG_PAUSED
    ensures s.state == StateStopped || s.state == StateNone ==> u.status == MSG_STOPPED
    ensures u.status == MSG_PLAYING <==> s.state == StatePlaying || (s.state == StateError && s.errorMessage == Some(MSG_PLAYING))
  {
    match s.state
    case StatePlaying => UiUpdate(MSG_PLAYING, IcMediaPause, true)
    case StateBuffering => UiUpdate(MSG_BUFFERING, IcMediaPause, true)
    case StatePaused => UiUpdate(MSG_PAUSED, IcMediaPlay, true)
    case StateStopped => UiUpdate(MSG_STOPPED, IcMediaPlay, hasStreamUrl)
    case StateNone => UiUpdate(MSG_STOPPED, IcMediaPlay, hasStreamUrl)
    case StateError => UiUpdate(s.errorMessage.GetOr(MSG_PLAYBACK_FAILED), IcMediaPlay, true)
  }

  /** The state the activity shows when the controller has no state yet: NONE at position 0,
      built without actions. */
  const NoStateYet := Snapshot(StateNone, Some(0), 0, None)

  // ---- the play/pause button ----

  datatype PlayPauseCommand = ServiceNotReady | SendPause | StartPlayback(url: string) | NothingLoaded

  /** handlePlayPause's decision: without a bound service and a controller, nothing; while the
      controller reports playing or buffering, pause; otherwise play the fetched stream, if any. */
  function PlayPauseDispatch(bound: bool, hasController: bool, state: Option<PlaybackState>, streamUrl: Option<string>): (c: PlayPauseCommand)
    ensures c.ServiceNotReady? <==> !bound || !hasController
    ensures c.SendPause? <==> bound && hasController && state.Some? && state.value.IsActivePlayback()
    ensures c.StartPlayback? <==> bound && hasController && !(state.Some? && state.value.IsActivePlayback())
                                  && streamUrl.Some? && streamUrl.value != ""
    ensures c.StartPlayback? ==> Some(c.url) == streamUrl
  {
    if !bound || !hasController then ServiceNotReady
    else if state == Some(StatePlaying) || state == Some(StateBuffering) then SendPause
    else if streamUrl.Some? && streamUrl.value != "" then StartPlayback(streamUrl.value)
    else NothingLoaded
  }

  /** The button does what its icon shows: with the service ready, it pauses exactly when the
      screen shows the pause icon for the controller's state. */
  lemma ButtonFollowsIcon(s: Snapshot, hasStreamUrl: bool, streamUrl: Option<string>)
    ensures PlayPauseDispatch(true, true, Some(s.state), streamUrl).SendPause? <==> UiFor(s, hasStreamUrl).icon == IcMediaPause
  {
  }

  /** A request the activity sends towards the service. */
  datatype Request =
    | TransportStop
    | TransportPause
    | StartService
    | PlayTrackRequest(url: string)

  class MainActivity {
    var statusText: string
    var playPauseIcon: Option<Icon>          // None: the icon the layout declares
    var controlsVisible: bool
    var fetchEnabled: bool
    var currentAudioStreamUrl: Option<string>
    var isServiceBound: bool
    var hasController: bool
    /** The link whose extraction is running, if one is. */
    var pendingFetch: Option<string>
    /** Everything sent to the service's controls or the service object, in order. */
    ghost var requests: seq<Request>

    /** onCreate: the welcome text, controls hidden. */
    constructor ()
      ensures statusText == MSG_WELCOME && playPauseIcon == None && !controlsVisible && fetchEnabled
      ensures currentAudioStreamUrl == None && !isServiceBound && !hasController
      ensures pendingFetch == None && requests == []
    {
      statusText := MSG_WELCOME;
      playPauseIcon := None;
      controlsVisible := false;
      fetchEnabled := true;
      currentAudioStreamUrl := None;
      isServiceBound := false;
      hasController := false;
      pendingFetch := None;
      requests := [];
    }

    /** updateUIFromPlaybackState(s). */
    method UpdateUIFromPlaybackState(s: Snapshot)
      modifies this
      ensures var u := UiFor(s, old(currentAudioStreamUrl).Some?);
        statusText == u.status && playPauseIcon == Some(u.icon) && controlsVisible == u.controlsVisible
      ensures fetchEnabled == old(fetchEnabled) && currentAudioStreamUrl == old(currentAudioStreamUrl)
      ensures isServiceBound == old(isServiceBound) && hasController == old(hasController)
      ensures pendingFetch == old(pendingFetch) && requests == old(requests)
    {
      var u := UiFor(s, currentAudioStreamUrl.Some?);
      statusText := u.status;
      playPauseIcon := Some(u.icon);
      controlsVisible := u.controlsVisible;
    }

    /** The controller callback onPlaybackStateChanged; an absent state is ignored. */
    method OnPlaybackStateChanged(s: Option<Snapshot>)
      modifies this
      ensures s.None? ==> statusText == old(statusText) && playPauseIcon == old(playPauseIcon) && controlsVisible == old(controlsVisible)
      ensures s.Some? ==> var u := UiFor(s.value, old(currentAudioStreamUrl).Some?);
        statusText == u.status && playPauseIcon == Some(u.icon) && controlsVisible == u.controlsVisible
      ensures fetchEnabled == old(fetchEnabled) && currentAudioStreamUrl == old(currentAudioStreamUrl)
      ensures isServiceBound == old(isServiceBound) && hasController == old(hasController)
      ensures pendingFetch == old(pendingFetch) && requests == old(requests)
    {
      if s.Some? {
        UpdateUIFromPlaybackState(s.value);
      }
    }

    /** onServiceConnected: bound; when the controller could be created, the screen shows the
        service's last state, or NONE when it has none yet. */
    method OnServiceConnected(controllerCreated: bool, lastState: Option<Snapshot>)
      modifies this
      ensures isServiceBound && hasController == (old(hasController) || controllerCreated)
      ensures controllerCreated ==> var u := UiFor(lastState.GetOr(NoStateYet), old(currentAudioStreamUrl).Some?);
        statusText == u.status && playPauseIcon == Some(u.icon) && controlsVisible == u.controlsVisible
      ensures !controllerCreated ==> statusText == old(statusText) && playPauseIcon == old(playPauseIcon) && controlsVisible == old(controlsVisible)
      ensures fetchEnabled == old(fetchEnabled) && currentAudioStreamUrl == old(currentAudioStreamUrl)
      ensures pendingFetch == old(pendingFetch) && requests == old(requests)
    {
      isServiceBound := true;
      if controllerCreated {
        hasController := true;
        match lastState {
          case Some(s) => UpdateUIFromPlaybackState(s);
          case None => UpdateUIFromPlaybackState(NoStateYet);
        }
      }
    }

    /** onServiceDisconnected: unbound, no controller. */
    method OnServiceDisconnected()
      modifies this
      ensures !isServiceBound && !hasController
      ensures statusText == old(statusText) && playPauseIcon == old(playPauseIcon) && controlsVisible == old(controlsVisible)
      ensures fetchEnabled == old(fetchEnabled) && currentAudioStreamUrl == old(currentAudioStreamUrl)
      ensures pendingFetch == old(pendingFetch) && requests == old(requests)
    {
      isServiceBound := false;
      hasController := false;
    }

    /** fetchAudioStream(url): stop any playback, show progress, disable the button, forget the
        previous stream and start the extraction. */
    method FetchAudioStream(videoUrl: string)
      modifies this
      ensures requests == old(requests) + (if old(hasController) then [TransportStop] else [])
      ensures statusText == MSG_FETCHING && !fetchEnabled && currentAudioStreamUrl == None
      ensures pendingFetch == Some(videoUrl)
      ensures playPauseIcon == old(playPauseIcon) && controlsVisible == old(controlsVisible)
      ensures isServiceBound == old(isServiceBound) && hasController == old(hasController)
    {
      if hasController {
        requests := requests + [TransportStop];
      }
      statusText := MSG_FETCHING;
      fetchEnabled := false;
      currentAudioStreamUrl := None;
      pendingFetch := Some(videoUrl);
    }

    /** The fetch button: the link check, then a fetch of the trimmed link when it passes. */
    method OnFetchClicked(input: string)
      modifies this
      ensures var c := CheckUrl(input);
        && (c.EmptyUrl? ==> statusText == MSG_ENTER_URL && pendingFetch == old(pendingFetch) && requests == old(requests))
        && (c.NotYouTube? ==> statusText == MSG_INVALID_URL && pendingFetch == old(pendingFetch) && requests == old(requests))
        && (c.FetchUrl? ==>
              && statusText == MSG_FETCHING && pendingFetch == Some(c.url) && !fetchEnabled
              && currentAudioStreamUrl == None
              && requests == old(requests) + (if old(hasController) then [TransportStop] else []))
        && (!c.FetchUrl? ==> fetchEnabled == old(fetchEnabled) && currentAudioStreamUrl == old(currentAudioStreamUrl))
      ensures playPauseIcon == old(playPauseIcon) && controlsVisible == old(controlsVisible)
      ensures isServiceBound == old(isServiceBound) && hasController == old(hasController)
    {
      var c := CheckUrl(input);
      match c {
        case EmptyUrl => statusText := MSG_ENTER_URL;
        case NotYouTube => statusText := MSG_INVALID_URL;
        case FetchUrl(url) => FetchAudioStream(url);
      }
    }

    /** The end of the extraction, back on the main thread. The button is enabled again in
        every case. */
    method CompleteFetch(outcome: FetchOutcome)
      modifies this
      ensures var r := ResolveFetch(outcome);
        && statusText == r.status && fetchEnabled
        && currentAudioStreamUrl == (if r.streamUrl.Some? then r.streamUrl else old(currentAudioStreamUrl))
        && controlsVisible == r.controls.GetOr(old(controlsVisible))
        && playPauseIcon == (if r.playIcon then Some(IcMediaPlay) else old(playPauseIcon))
      ensures pendingFetch == None
      ensures isServiceBound == old(isServiceBound) && hasController == old(hasController) && requests == old(requests)
    {
      var r := ResolveFetch(outcome);
      if r.streamUrl.Some? {
        currentAudioStreamUrl := r.streamUrl;
      }
      statusText := r.status;
      if r.playIcon {
        playPauseIcon := Some(IcMediaPlay);
      }
      if r.controls.Some? {
        controlsVisible := r.controls.value;
      }
      fetchEnabled := true;
      pendingFetch := None;
    }

    /** handlePlayPause, given the state the controller reports. */
    method HandlePlayPause(controllerState: Option<PlaybackState>) returns (c: PlayPauseCommand)
      modifies this
      ensures c == PlayPauseDispatch(old(isServiceBound), old(hasController), controllerState, old(currentAudioStreamUrl))
      ensures requests == old(requests) + match c
        case SendPause => [TransportPause]
        case StartPlayback(url) => [StartService, PlayTrackRequest(url)]
        case _ => []
      ensures statusText == match c
        case ServiceNotReady => MSG_SERVICE_NOT_READY
        case NothingLoaded => MSG_NOTHING_LOADED
        case _ => old(statusText)
      ensures playPauseIcon == old(playPauseIcon) && controlsVisible == old(controlsVisible)
      ensures fetchEnabled == old(fetchEnabled) && currentAudioStreamUrl == old(currentAudioStreamUrl)
      ensures isServiceBound == old(isServiceBound) && hasController == old(hasController)
      ensures pendingFetch == old(pendingFetch)
    {
      if !isServiceBound || !hasController {
        statusText := MSG_SERVICE_NOT_READY;
        return ServiceNotReady;
      }
      if controllerState == Some(StatePlaying) || controllerState == Some(StateBuffering) {
        requests := requests + [TransportPause];
        return SendPause;
      }
      if currentAudioStreamUrl.Some? && currentAudioStreamUrl.value != "" {
        requests := requests + [StartService, PlayTrackRequest(currentAudioStreamUrl.value)];
        return StartPlayback(currentAudioStreamUrl.value);
      }
      statusText := MSG_NOTHING_LOADED;
      return NothingLoaded;
    }

    /** handleStop: a stop to the service's session when it is ready; otherwise nothing. */
    method HandleStop()
      modifies this
      ensures requests == old(requests) + (if old(isServiceBound) && old(hasController) then [TransportStop] else [])
      ensures statusText == old(statusText) && playPauseIcon == old(playPauseIcon) && controlsVisible == old(controlsVisible)
      ensures fetchEnabled == old(fetchEnabled) && currentAudioStreamUrl == old(currentAudioStreamUrl)
      ensures isServiceBound == old(isServiceBound) && hasController == old(hasController)
      ensures pendingFetch == old(pendingFetch)
    {
      if !isServiceBound || !hasController {
        return;
      }
      requests := requests + [TransportStop];
    }
  }
}
