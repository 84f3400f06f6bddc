/** The service's media notification: the pure renderer `buildNotification` and the three
    platform calls that show, detach or remove it. */
module Notifications {
  import opened Wrappers
  import opened Platform

  const CHANNEL_ID := "AudioPlayerServiceChannel"
  const NOTIFICATION_ID := 1
  const NOTIFICATION_TITLE := "YouTube Audio Player"

  /** A notification button: its icon, its label and the media-button action its tap sends. */
  datatype NotificationAction = NotificationAction(icon: Icon, title: string, command: bv64)

  datatype Notification = Notification(
    channel: string,
    title: string,
    text: string,
    actions: seq<NotificationAction>,
    compactActions: seq<nat>,   // indices shown in the compact media view
    publicVisibility: bool,
    ongoing: bool)

  const PAUSE_ACTION := NotificationAction(IcMediaPause, "Pause", ACTION_PAUSE)
  const PLAY_ACTION := NotificationAction(IcMediaPlay, "Play", ACTION_PLAY)
  const STOP_ACTION := NotificationAction(IcMediaStop, "Stop", ACTION_STOP)

  /** The notification for a playback state: a play/pause toggle then Stop, ongoing (not
      swipeable) only while playing or buffering, the text "Error" only for the error state. */
  function BuildNotification(s: PlaybackState): (n: Notification)
    ensures n.title == NOTIFICATION_TITLE && n.channel == CHANNEL_ID
    ensures |n.actions| == 2 && n.actions[1] == STOP_ACTION
    ensures n.actions[0] == PAUSE_ACTION <==> s.IsActivePlayback()
    ensures n.actions[0] == PLAY_ACTION <==> !s.IsActivePlayback()
    ensures n.ongoing <==> s.IsActivePlayback()
    ensures n.text == "Error" <==> s == StateError
    ensures s != StateError ==> n.text == "Playing audio"
    ensures forall k :: k in n.compactActions ==> k < |n.actions|
  {
    var toggle := if s == StatePlaying || s == StateBuffering then PAUSE_ACTION else PLAY_ACTION;
    Notification(
      CHANNEL_ID,
      NOTIFICATION_TITLE,
      if s == StateError then "Error" else "Playing audio",
      [toggle, STOP_ACTION],
      [0, 1],
      true,
      s == StatePlaying || s == StateBuffering)
  }

  /** The toggle's tap undoes what the state says: it pauses an active state and plays any other. */
  lemma ToggleCommandMatchesState(s: PlaybackState)
    ensures BuildNotification(s).actions[0].command == if s.IsActivePlayback() then ACTION_PAUSE else ACTION_PLAY
  {
  }

  /** What the system shows for the service: nothing, a foreground notification tied to the
      service, or a notification left behind after the service left the foreground. */
  datatype NotificationStatus =
    | NoNotification
    | Foreground(shown: Notification)
    | Detached(shown: Notification)
  {
    function Shown(): Option<Notification> {
      if NoNotification? then None else Some(shown)
    }
  }

  /** `NotificationManager.notify(NOTIFICATION_ID, n)`: replaces the notification with the same
      id, keeping a foreground notification in the foreground. */
  function Notify(status: NotificationStatus, n: Notification): (r: NotificationStatus)
    ensures r.Shown() == Some(n)
    ensures r.Foreground? <==> status.Foreground?
  {
    if status.Foreground? then Foreground(n) else Detached(n)
  }

  /** `stopForeground(remove)`: removes the notification when `remove`, otherwise detaches a
      foreground notification and leaves any other status alone. */
  function StopForeground(status: NotificationStatus, remove: bool): (r: NotificationStatus)
    ensures !r.Foreground?
    ensures remove ==> r == NoNotification
    ensures !remove ==> r.Shown() == status.Shown()
  {
    if remove then NoNotification
    else match status
      case Foreground(n) => Detached(n)
      case _ => status
  }
}
