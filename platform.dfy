/** The Android media-session values the service publishes and the activity reads back
    (PlaybackStateCompat and its builder), and the stock drawables both of them show. */
module Platform {
  import opened Wrappers

  /** The playback states the service publishes (PlaybackStateCompat.STATE_*). */
  datatype PlaybackState =
    | StateNone        // STATE_NONE = 0
    | StateStopped     // STATE_STOPPED = 1
    | StatePaused      // STATE_PAUSED = 2
    | StatePlaying     // STATE_PLAYING = 3
    | StateBuffering   // STATE_BUFFERING = 6
    | StateError       // STATE_ERROR = 7
  {
    /** The integer code the session carries. */
    function Code(): (c: int)
      ensures 0 <= c <= 7
    {
      match this
      case StateNone => 0
      case StateStopped => 1
      case StatePaused => 2
      case StatePlaying => 3
      case StateBuffering => 6
      case StateError => 7
    }

    /** STATE_PLAYING or STATE_BUFFERING: the states in which the service counts as busy. */
    predicate IsActivePlayback() {
      this == StatePlaying || this == StateBuffering
    }
  }

  /** Transport action bits (PlaybackStateCompat.ACTION_*). */
  const ACTION_STOP: bv64 := 1
  const ACTION_PAUSE: bv64 := 2
  const ACTION_PLAY: bv64 := 4
  const ACTION_PLAY_PAUSE: bv64 := 512

  /** The action mask every published state advertises. */
  const ADVERTISED_ACTIONS: bv64 := ACTION_PLAY | ACTION_PLAY_PAUSE | ACTION_PAUSE | ACTION_STOP

  /** One published playback state. `position` is None for PLAYBACK_POSITION_UNKNOWN. */
  datatype Snapshot = Snapshot(
    state: PlaybackState,
    position: Option<int>,
    actions: bv64,
    errorMessage: Option<string>)

  /** What the service's builder chain makes of a state, a position and an optional error
      message: the fixed action mask, and the message attached only to an error state. */
  function BuildSnapshot(state: PlaybackState, position: Option<int>, errorMessage: Option<string>): (r: Snapshot)
    ensures r.state == state && r.position == position
    ensures r.actions == ADVERTISED_ACTIONS
    ensures r.actions & ACTION_PLAY != 0 && r.actions & ACTION_PAUSE != 0
    ensures r.actions & ACTION_STOP != 0 && r.actions & ACTION_PLAY_PAUSE != 0
    ensures r.errorMessage.Some? <==> state == StateError && errorMessage.Some?
    ensures r.errorMessage.Some? ==> r.errorMessage == errorMessage
  {
    var withMessage := state == StateError && errorMessage.Some?;
    Snapshot(state, position, ADVERTISED_ACTIONS, if withMessage then errorMessage else None)
  }

  /** Every snapshot the builder produces has this shape. */
  predicate WellFormed(s: Snapshot) {
    s.actions == ADVERTISED_ACTIONS && (s.errorMessage.Some? ==> s.state == StateError)
  }

  /** android.R.drawable.ic_media_* */
  datatype Icon = IcMediaPlay | IcMediaPause | IcMediaStop
}
