/** Camera acquisition (src/hooks/useWebcam.ts): start with error
    classification and one relaxed retry, an idempotent stop, and the guards
    of frame capture. The media API is an oracle: each request either yields
    a stream or throws. */
module Webcam {
  import opened Types
  import opened Store

  /** A `MediaStreamTrack`; `stop()` ends it. */
  class Track {
    var live: bool

    constructor ()
      ensures live
    {
      live := true;
    }
  }

  /** A `MediaStream`: its tracks. */
  datatype Stream = Stream(tracks: seq<Track>)

  datatype MediaOutcome = Granted(stream: Stream) | Rejected(thrown: Thrown)

  const UnsupportedBrowserMessage: string :=
    "Browser tidak mendukung akses kamera. Silakan gunakan browser modern seperti Chrome, Firefox, atau Safari."
  const GenericFailureMessage: string := "Gagal mengakses kamera"
  const PermissionDeniedMessage: string :=
    "Akses kamera ditolak. Silakan izinkan akses kamera di browser dan refresh halaman."
  const NotFoundMessage: string :=
    "Kamera tidak ditemukan. Pastikan kamera terhubung dan tidak digunakan aplikasi lain."
  const BusyMessage: string :=
    "Kamera sedang digunakan aplikasi lain. Tutup aplikasi lain yang menggunakan kamera."
  const OverconstrainedMessage: string :=
    "Kamera tidak mendukung resolusi yang diminta. Mencoba dengan pengaturan default..."
  const IncompatibleMessage: string := "Kamera tidak kompatibel dengan aplikasi ini."
  const SecurityMessage: string :=
    "Akses kamera diblokir karena alasan keamanan. Pastikan menggunakan HTTPS atau localhost."
  const PlaybackFailedMessage: string := "Gagal memulai video playback"
  const VideoElementErrorMessage: string := "Error pada video element"

  /** The names with a fixed message of their own. */
  const KnownNames: set<string> := {"NotAllowedError", "NotFoundError", "NotReadableError", "SecurityError"}

  /** The message for a failure other than `OverconstrainedError`. */
  function ErrorMessage(e: Thrown): (m: string)
    ensures e.NonError? ==> m == GenericFailureMessage
    ensures e.ErrorValue? && e.name !in KnownNames && e.name != "OverconstrainedError" ==> m == e.message
    ensures e.ErrorValue? && e.name == "NotAllowedError" ==> m == PermissionDeniedMessage
    ensures e.ErrorValue? && e.name == "NotFoundError" ==> m == NotFoundMessage
    ensures e.ErrorValue? && e.name == "NotReadableError" ==> m == BusyMessage
    ensures e.ErrorValue? && e.name == "SecurityError" ==> m == SecurityMessage
  {
    match e
    case NonError => GenericFailureMessage
    case ErrorValue(name, message) =>
      if name == "NotAllowedError" then PermissionDeniedMessage
      else if name == "NotFoundError" then NotFoundMessage
      else if name == "NotReadableError" then BusyMessage
      else if name == "SecurityError" then SecurityMessage
      else if name == "OverconstrainedError" then OverconstrainedMessage
      else message
  }

  /** The four named causes each get a message of their own, so the user can
      tell them apart. */
  lemma KnownCausesDistinguished(n1: string, n2: string, msg1: string, msg2: string)
    requires n1 in KnownNames && n2 in KnownNames && n1 != n2
    ensures ErrorMessage(ErrorValue(n1, msg1)) != ErrorMessage(ErrorValue(n2, msg2))
  {
  }

  class Webcam {
    /** `streamRef.current`. */
    var stream: Option<Stream>
    /** `videoRef.current.srcObject`, when the element exists. */
    var srcObject: Option<Stream>
    /** Whether `videoRef.current` / `canvasRef.current` are set. */
    var hasVideoElement: bool
    var hasCanvasElement: bool
    const store: DetectionStore

    constructor (store: DetectionStore, hasVideoElement: bool, hasCanvasElement: bool)
      ensures this.store == store && stream.None? && srcObject.None?
      ensures this.hasVideoElement == hasVideoElement && this.hasCanvasElement == hasCanvasElement
    {
      this.store := store;
      stream := None;
      srcObject := None;
      this.hasVideoElement := hasVideoElement;
      this.hasCanvasElement := hasCanvasElement;
    }

    /** `startWebcam()`. `hasMediaDevices` is whether
        `navigator.mediaDevices.getUserMedia` exists, `hasLegacy` whether a
        prefixed `getUserMedia` does; `first` answers the request for
        640x480 and `retry` the request for `{ video: true }`, which only an
        `OverconstrainedError` leads to. Success here means the stream is
        attached; `isVideoActive` follows on `OnPlaybackStarted`. */
    method Start(hasMediaDevices: bool, hasLegacy: bool, first: MediaOutcome, retry: MediaOutcome)
      modifies this, store
      ensures hasVideoElement == old(hasVideoElement) && hasCanvasElement == old(hasCanvasElement)
      ensures store.State().(videoError := None, isVideoActive := old(store.isVideoActive))
              == old(store.State()).(videoError := None)
      ensures !hasMediaDevices && !hasLegacy ==>
        store.videoError == Some(UnsupportedBrowserMessage) && !store.isVideoActive
        && stream == old(stream) && srcObject == old(srcObject)
      ensures (hasMediaDevices || hasLegacy) && first.Granted? ==>
        store.videoError.None? && store.isVideoActive == old(store.isVideoActive)
        && (hasVideoElement ==> stream == Some(first.stream) && srcObject == Some(first.stream))
        && (!hasVideoElement ==> stream == old(stream) && srcObject == old(srcObject))
      ensures (hasMediaDevices || hasLegacy) && first.Rejected? && !IsOverconstrained(first.thrown) ==>
        store.videoError == Some(ErrorMessage(first.thrown)) && !store.isVideoActive
        && stream == old(stream) && srcObject == old(srcObject)
      ensures (hasMediaDevices || hasLegacy) && first.Rejected? && IsOverconstrained(first.thrown) ==>
        if hasMediaDevices && retry.Granted? && hasVideoElement then
          store.isVideoActive && store.videoError.None?
          && stream == Some(retry.stream) && srcObject == Some(retry.stream)
        else
          !store.isVideoActive && stream == old(stream) && srcObject == old(srcObject)
          && store.videoError == Some(
               if hasMediaDevices && retry.Granted? then OverconstrainedMessage else IncompatibleMessage)
    {
      store.SetVideoError(None);
      var outcome: MediaOutcome;
      if !hasMediaDevices && !hasLegacy {
        outcome := Rejected(ErrorValue("Error", UnsupportedBrowserMessage));
      } else {
        outcome := first;
      }
      if outcome.Granted? {
        if hasVideoElement {
          srcObject := Some(outcome.stream);
          stream := Some(outcome.stream);
        }
        return;
      }
      var message := ErrorMessage(outcome.thrown);
      if IsOverconstrained(outcome.thrown) {
        // `navigator.mediaDevices.getUserMedia` is called again; without
        // `mediaDevices` that call throws a TypeError, which counts as a
        // failed retry.
        var second := if hasMediaDevices then retry else Rejected(NonError);
        if second.Granted? {
          if hasVideoElement {
            srcObject := Some(second.stream);
            stream := Some(second.stream);
            store.SetIsVideoActive(true);
            return;
          }
        } else {
          message := IncompatibleMessage;
        }
      }
      store.SetVideoError(Some(message));
      store.SetIsVideoActive(false);
    }

    /** `onloadedmetadata` followed by a successful `play()`. */
    method OnPlaybackStarted()
      modifies store
      ensures store.State() == old(store.State()).(isVideoActive := true)
    {
      store.SetIsVideoActive(true);
    }

    /** `play()` rejected. */
    method OnPlaybackFailed()
      modifies store
      ensures store.State() == old(store.State()).(videoError := Some(PlaybackFailedMessage))
    {
      store.SetVideoError(Some(PlaybackFailedMessage));
    }

    /** The video element's `onerror`. */
    method OnVideoElementError()
      modifies store
      ensures store.State() == old(store.State()).(videoError := Some(VideoElementErrorMessage))
    {
      store.SetVideoError(Some(VideoElementErrorMessage));
    }

    /** The tracks `Stop` will end. */
    function Tracks(): set<Track>
      reads this
    {
      if stream.Some? then set t | t in stream.value.tracks else {}
    }

    /** `stopWebcam()`: end every track, drop the stream, detach the video,
        and mark video inactive, whether or not a stream was there. */
    method Stop()
      modifies this, store, Tracks()
      ensures forall t :: t in old(Tracks()) ==> !t.live
      ensures stream.None?
      ensures srcObject == (if hasVideoElement then None else old(srcObject))
      ensures hasVideoElement == old(hasVideoElement) && hasCanvasElement == old(hasCanvasElement)
      ensures store.State() == old(store.State()).(isVideoActive := false)
    {
      if stream.Some? {
        var tracks := stream.value.tracks;
        var i := 0;
        while i < |tracks|
          invariant 0 <= i <= |tracks|
          invariant forall j :: 0 <= j < i ==> !tracks[j].live
          invariant store.State() == old(store.State())
          invariant stream == old(stream) && srcObject == old(srcObject)
          invariant hasVideoElement == old(hasVideoElement) && hasCanvasElement == old(hasCanvasElement)
        {
          tracks[i].live := false;
          i := i + 1;
        }
        stream := None;
      }
      if hasVideoElement {
        srcObject := None;
      }
      store.SetIsVideoActive(false);
    }

    /** `captureFrame()`. `hasContext` is whether `getContext('2d')`
        returns a context; `encoded` is what `toDataURL` returns, `None`
        when it throws. */
    method CaptureFrame(hasContext: bool, encoded: Option<string>) returns (frame: Option<string>)
      ensures frame.Some? <==>
        hasVideoElement && hasCanvasElement && store.isVideoActive && hasContext && encoded.Some?
      ensures frame.Some? ==> frame == encoded
    {
      if !hasVideoElement || !hasCanvasElement || !store.isVideoActive {
        return None;
      }
      if !hasContext {
        return None;
      }
      frame := encoded;
    }
  }

  predicate IsOverconstrained(e: Thrown)
  {
    e.ErrorValue? && e.name == "OverconstrainedError"
  }

  /** Stopping twice is stopping once: the second call finds no stream and
      only re-asserts that video is inactive. */
  method StopTwice(w: Webcam)
    modifies w, w.store, w.Tracks()
    ensures w.stream.None? && !w.store.isVideoActive
    ensures forall t :: t in old(w.Tracks()) ==> !t.live
  {
    w.Stop();
    ghost var afterFirst := w.store.State();
    w.Stop();
    assert w.store.State() == afterFirst;
  }
}
