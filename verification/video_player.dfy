/**
 * The recording screen: start and stop buttons around the camera, and the
 * handlers that save a finished recording, add it to the shared video list and
 * move on to the list screen.
 */
module VideoPlayer {
  import opened Wrappers
  import opened Strings
  import opened Types
  import opened VideoContext

  const FileScheme: string := "file://"

  /** A recording's path as a `file://` URI: already-prefixed paths are kept as they are. */
  function NormaliseUri(path: string): (uri: string)
    ensures StartsWith(uri, FileScheme)
    ensures StartsWith(path, FileScheme) ==> uri == path
    ensures !StartsWith(path, FileScheme) ==> uri[|FileScheme|..] == path
  {
    if StartsWith(path, FileScheme) then path else FileScheme + path
  }

  /** Normalising twice is normalising once, and a path is left alone exactly when it is already a URI. */
  lemma NormaliseUriIdempotent(path: string)
    ensures NormaliseUri(NormaliseUri(path)) == NormaliseUri(path)
    ensures NormaliseUri(path) == path <==> StartsWith(path, FileScheme)
  {
    var uri := NormaliseUri(path);
    assert StartsWith(uri, FileScheme);
  }

  /** `posterUri || undefined`: a failed (`null`) or empty thumbnail path gives no poster. */
  function Poster(thumbnail: Option<string>): (poster: Option<string>)
    ensures poster.Some? <==> thumbnail.Some? && thumbnail.value != ""
    ensures poster.Some? ==> poster == thumbnail
  {
    if thumbnail.Some? && thumbnail.value != "" then thumbnail else None
  }

  /** The screens the recorder can be showing. */
  datatype Route = Recorder | VideoScreen

  /** An `Alert.alert(title, message)` shown to the user. */
  datatype Alert = Alert(title: string, message: string)

  /** `error.message || 'Unknown error'` */
  function RecordingErrorAlert(message: string): (a: Alert)
    ensures a.title == "Recording Error"
    ensures message != "" ==> a.message == message
    ensures message == "" ==> a.message == "Unknown error"
  {
    Alert("Recording Error", if message == "" then "Unknown error" else message)
  }

  /**
   * The `VideoPlayer` screen's state. `cameraRef.current` is set exactly when the
   * camera view is mounted, which needs a back device and granted permissions.
   */
  class VideoRecorder {
    const hasDevice: bool
    var permissionsGranted: bool
    var isRecording: bool
    var route: Route
    var alerts: seq<Alert>
    const store: VideoStore

    constructor (hasDevice: bool, store: VideoStore)
      ensures this.hasDevice == hasDevice && this.store == store
      ensures !permissionsGranted && !isRecording && route == Recorder && alerts == []
    {
      this.hasDevice := hasDevice;
      this.store := store;
      permissionsGranted := false;
      isRecording := false;
      route := Recorder;
      alerts := [];
    }

    /** Whether the camera view, and with it `cameraRef.current`, exists. */
    function HasCamera(): bool
      reads this
    {
      hasDevice && permissionsGranted
    }

    /** The mount effect: both the camera and the microphone must answer `'granted'`. */
    method RequestPermissions(cameraStatus: string, micStatus: string)
      modifies this
      ensures permissionsGranted == PermissionsGranted(cameraStatus, micStatus)
      ensures isRecording == old(isRecording) && route == old(route) && alerts == old(alerts)
    {
      permissionsGranted := cameraStatus == "granted" && micStatus == "granted";
    }

    /**
     * `handleStartRecording`: nothing happens without a camera or while recording;
     * otherwise the screen enters recording, and leaves it again with an alert when
     * the camera refuses to start.
     */
    method HandleStartRecording(startFails: bool) returns (started: bool)
      modifies this
      ensures !old(HasCamera()) || old(isRecording) ==>
        !started && isRecording == old(isRecording) && alerts == old(alerts)
      ensures old(HasCamera()) && !old(isRecording) ==>
        started == !startFails && isRecording == !startFails &&
        alerts == old(alerts) + (if startFails then [Alert("Error", "Could not start recording.")] else [])
      ensures permissionsGranted == old(permissionsGranted) && route == old(route)
    {
      if !HasCamera() || isRecording {
        return false;
      }
      isRecording := true;
      if startFails {
        isRecording := false;
        alerts := alerts + [Alert("Error", "Could not start recording.")];
        return false;
      }
      started := true;
    }

    /** `handleStopRecording`: asks the camera to stop only while a recording runs; the state waits for the callbacks. */
    method HandleStopRecording() returns (stopRequested: bool)
      ensures stopRequested <==> HasCamera() && isRecording
    {
      stopRequested := HasCamera() && isRecording;
    }

    /**
     * `onRecordingFinished`: the recording is saved to the gallery and added at the
     * front of the shared list, with the recording time in milliseconds as its id
     * and its thumbnail, if one was made, as its poster. A failed save is reported
     * and adds nothing. Either way recording ends and the list screen is shown.
     */
    method OnRecordingFinished(path: string, saveFails: bool, thumbnail: Option<string>, nowMillis: nat)
      modifies this, store
      ensures !saveFails ==>
        store.videos == [VideoItem(NatToDecimal(nowMillis), NormaliseUri(path), Poster(thumbnail))] + old(store.videos)
      ensures saveFails ==> store.videos == old(store.videos)
      ensures alerts == old(alerts) + (if saveFails then [Alert("Error", "Failed to save video to gallery.")] else [])
      ensures !isRecording && route == VideoScreen && permissionsGranted == old(permissionsGranted)
    {
      var videoUri := NormaliseUri(path);
      if saveFails {
        alerts := alerts + [Alert("Error", "Failed to save video to gallery.")];
      } else {
        var posterUri := thumbnail;
        store.AddVideo(VideoItem(NatToDecimal(nowMillis), videoUri, Poster(posterUri)));
      }
      isRecording := false;
      route := VideoScreen;
    }

    /** `onRecordingError`: the error is reported and recording ends; the screen stays. */
    method OnRecordingError(message: string)
      modifies this
      ensures alerts == old(alerts) + [RecordingErrorAlert(message)]
      ensures !isRecording && route == old(route) && permissionsGranted == old(permissionsGranted)
    {
      alerts := alerts + [RecordingErrorAlert(message)];
      isRecording := false;
    }
  }

  /**
   * A saved recording is listed with a `file://` URI naming its path, a decimal
   * id that reads back as its timestamp, and a non-empty poster when it has one.
   */
  lemma SavedVideoShape(path: string, thumbnail: Option<string>, nowMillis: nat)
    ensures var v := VideoItem(NatToDecimal(nowMillis), NormaliseUri(path), Poster(thumbnail));
      StartsWith(v.uri, FileScheme) &&
      DecimalValue(v.id) == nowMillis &&
      (v.poster.Some? ==> v.poster.value != "")
  {
    DecimalRoundTrip(nowMillis);
  }
}
