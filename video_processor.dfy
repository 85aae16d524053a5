/** The upload panel (src/components/VideoProcessor.tsx): file validation,
    one upload round trip with its error paths, and reset. The HTTP call is
    an oracle: its reply is a parameter, and so is what `JSON.parse` makes of
    the statistics header. */
module VideoProcessor {
  import opened Types
  import opened Store

  /** The parts of a `File` the panel looks at. */
  datatype FileInfo = FileInfo(name: string, mimeType: string, size: int)

  /** 100 MiB, the largest accepted upload. */
  const MaxUploadBytes: int := 100 * 1024 * 1024

  const NotVideoMessage: string := "Please select a video file"
  const TooLargeMessage: string := "File size must be less than 100MB"
  const UnknownErrorDetail: string := "Unknown error"
  const ProcessingFailedMessage: string := "Processing failed"
  const VideoPrefix: string := "video/"

  predicate StartsWith(s: string, prefix: string)
  {
    |prefix| <= |s| && s[..|prefix|] == prefix
  }

  /** The two checks of `handleFileSelect`, type before size: `None` when
      the file is accepted, otherwise the message shown. */
  function Validate(f: FileInfo): (rejection: Option<string>)
    ensures !StartsWith(f.mimeType, VideoPrefix) ==> rejection == Some(NotVideoMessage)
    ensures StartsWith(f.mimeType, VideoPrefix) && f.size > MaxUploadBytes ==>
      rejection == Some(TooLargeMessage)
    ensures rejection.None? <==> StartsWith(f.mimeType, VideoPrefix) && f.size <= MaxUploadBytes
  {
    if !StartsWith(f.mimeType, VideoPrefix) then Some(NotVideoMessage)
    else if f.size > MaxUploadBytes then Some(TooLargeMessage)
    else None
  }

  /** The bound is inclusive: exactly 100 MiB passes, one byte more does
      not, and a file that is neither a video nor small enough is reported
      as not a video. */
  lemma ValidateBoundary(name: string, subtype: string)
    ensures Validate(FileInfo(name, VideoPrefix + subtype, MaxUploadBytes)).None?
    ensures Validate(FileInfo(name, VideoPrefix + subtype, MaxUploadBytes + 1)) == Some(TooLargeMessage)
    ensures Validate(FileInfo(name, "image/png", MaxUploadBytes + 1)) == Some(NotVideoMessage)
  {
    assert (VideoPrefix + subtype)[..|VideoPrefix|] == VideoPrefix;
    assert "image/png"[0] != VideoPrefix[0];
  }

  /** `header.replace(/'/g, '"')`. */
  function ReplaceQuotes(s: string): (r: string)
    ensures |r| == |s|
    ensures forall i :: 0 <= i < |s| ==> r[i] == if s[i] == '\'' then '"' else s[i]
  {
    if s == [] then []
    else [if s[0] == '\'' then '"' else s[0]] + ReplaceQuotes(s[1..])
  }

  /** After the rewrite no single quote is left, a string without single
      quotes is left as it is, and so the rewrite is idempotent. */
  lemma ReplaceQuotesLaws(s: string)
    ensures '\'' !in ReplaceQuotes(s)
    ensures '\'' !in s ==> ReplaceQuotes(s) == s
    ensures ReplaceQuotes(ReplaceQuotes(s)) == ReplaceQuotes(s)
  {
    var r := ReplaceQuotes(s);
    assert forall i :: 0 <= i < |r| ==> r[i] != '\'';
  }

  /** Rewriting distributes over concatenation: each character is rewritten
      on its own. */
  lemma {:induction false} ReplaceQuotesConcat(a: string, b: string)
    ensures ReplaceQuotes(a + b) == ReplaceQuotes(a) + ReplaceQuotes(b)
  {
    if a == [] {
      assert a + b == b;
    } else {
      assert (a + b)[0] == a[0];
      assert (a + b)[1..] == a[1..] + b;
      ReplaceQuotesConcat(a[1..], b);
    }
  }

  /** The decimal text of a non-negative integer, as a template literal
      writes an HTTP status. */
  function Decimal(n: nat): (s: string)
    ensures |s| >= 1
    ensures forall i :: 0 <= i < |s| ==> '0' <= s[i] <= '9'
    ensures n >= 10 ==> s[0] != '0'
  {
    if n < 10 then [Digit(n)] else Decimal(n / 10) + [Digit(n % 10)]
  }

  function Digit(d: nat): (c: char)
    requires d < 10
    ensures '0' <= c <= '9'
  {
    ['0', '1', '2', '3', '4', '5', '6', '7', '8', '9'][d]
  }

  /** Reading decimal digits back, the partner of `Decimal`. */
  function DigitsValue(s: string): (n: nat)
    requires forall i :: 0 <= i < |s| ==> '0' <= s[i] <= '9'
  {
    if s == [] then 0 else DigitsValue(s[..|s| - 1]) * 10 + ((s[|s| - 1] as int) - ('0' as int))
  }

  lemma {:induction false} DecimalRoundTrip(n: nat)
    ensures DigitsValue(Decimal(n)) == n
  {
    var s := Decimal(n);
    if n < 10 {
      assert s[..|s| - 1] == [];
    } else {
      DecimalRoundTrip(n / 10);
      assert s[..|s| - 1] == Decimal(n / 10);
    }
  }

  /** The request `processVideo` sends. */
  datatype Request = Request(
    file: FileInfo,
    faceConfidence: real,
    bodyConfidence: real,
    processAllFrames: bool)

  /** The `detail` of an error body: `Unreadable` when `response.json()`
      fails, otherwise the field, `None` when the body has none. */
  datatype ErrorBody = Unreadable | Body(detail: Option<string>)

  /** What the blob step produces: a fresh object URL, or what
      `response.blob()` rejected with. */
  datatype BlobOutcome = ObjectUrl(url: string) | BlobFailed(thrown: Thrown)

  /** The reply to the upload: `fetch` rejected, or a response. */
  datatype Reply =
    | FetchFailed(thrown: Thrown)
    | Response(ok: bool, status: nat, errorBody: ErrorBody, statsHeader: Option<string>, blob: BlobOutcome)

  /** The summary statistics the server sends in `X-Processing-Stats`. */
  datatype ProcessingStats = ProcessingStats(
    totalFrames: real,
    processedFrames: real,
    detectionProcessedFrames: real,
    totalFaces: real,
    totalBodies: real,
    processingTime: real,
    avgFacesPerFrame: real,
    avgBodiesPerFrame: real,
    maxFacesInFrame: real,
    maxBodiesInFrame: real)

  /** The message of the `Error` thrown for a non-OK status:
      `errorData.detail || \`HTTP ${status}\``, where an empty detail is
      falsy and an unreadable body reads as `'Unknown error'`. */
  function HttpErrorMessage(status: nat, body: ErrorBody): (m: string)
    ensures body.Unreadable? ==> m == UnknownErrorDetail
    ensures body.Body? && body.detail.Some? && body.detail.value != "" ==> m == body.detail.value
    ensures body.Body? && (body.detail.None? || body.detail.value == "") ==> m == "HTTP " + Decimal(status)
    ensures m != ""
  {
    match body
    case Unreadable => UnknownErrorDetail
    case Body(detail) =>
      if detail.Some? && detail.value != "" then detail.value else "HTTP " + Decimal(status)
  }

  /** The `catch`: an `Error`'s message, or `'Processing failed'`. */
  function CaughtMessage(t: Thrown): (m: string)
    ensures t.ErrorValue? ==> m == t.message
    ensures t.NonError? ==> m == ProcessingFailedMessage
  {
    match t
    case ErrorValue(_, message) => message
    case NonError => ProcessingFailedMessage
  }

  class VideoProcessor {
    var selectedFile: Option<FileInfo>
    var isProcessing: bool
    var processedVideoUrl: Option<string>
    var processingStats: Option<ProcessingStats>
    var error: Option<string>
    var processAllFrames: bool
    const store: DetectionStore

    constructor (store: DetectionStore)
      ensures this.store == store
      ensures selectedFile.None? && !isProcessing && processedVideoUrl.None?
      ensures processingStats.None? && error.None? && processAllFrames
    {
      this.store := store;
      selectedFile := None;
      isProcessing := false;
      processedVideoUrl := None;
      processingStats := None;
      error := None;
      processAllFrames := true;
    }

    /** `handleFileSelect`, with the first selected file or `None`. */
    method HandleFileSelect(file: Option<FileInfo>)
      modifies this
      ensures isProcessing == old(isProcessing) && processAllFrames == old(processAllFrames)
      ensures file.None? ==>
        selectedFile == old(selectedFile) && error == old(error)
        && processedVideoUrl == old(processedVideoUrl) && processingStats == old(processingStats)
      ensures file.Some? && Validate(file.value).Some? ==>
        error == Validate(file.value) && selectedFile == old(selectedFile)
        && processedVideoUrl == old(processedVideoUrl) && processingStats == old(processingStats)
      ensures file.Some? && Validate(file.value).None? ==>
        selectedFile == file && error.None? && processedVideoUrl.None? && processingStats.None?
    {
      if file.None? {
        return;
      }
      var rejection := Validate(file.value);
      if rejection.Some? {
        error := rejection;
        return;
      }
      selectedFile := file;
      error := None;
      processedVideoUrl := None;
      processingStats := None;
    }

    /** The first half of `processVideo`, up to the `await` on `fetch`:
        nothing without a file; otherwise mark processing, clear the error
        and build the request from the store's thresholds. */
    method StartProcessing() returns (request: Option<Request>)
      modifies this
      ensures selectedFile == old(selectedFile) && processAllFrames == old(processAllFrames)
      ensures request.None? <==> selectedFile.None?
      ensures request.None? ==>
        isProcessing == old(isProcessing) && error == old(error)
      ensures request.Some? ==>
        isProcessing && error.None?
        && request.value == Request(selectedFile.value, store.settings.faceConfidenceThreshold,
                                    store.settings.bodyConfidenceThreshold, processAllFrames)
      ensures processedVideoUrl == old(processedVideoUrl) && processingStats == old(processingStats)
    {
      if selectedFile.None? {
        return None;
      }
      isProcessing := true;
      error := None;
      request := Some(Request(selectedFile.value, store.settings.faceConfidenceThreshold,
                              store.settings.bodyConfidenceThreshold, processAllFrames));
    }

    /** The rest of `processVideo`, once the reply is in. `parse` is what
        `JSON.parse` makes of a header text, `None` when it throws. The
        `finally` clears the processing flag on every path. */
    method FinishProcessing(reply: Reply, parse: string -> Option<ProcessingStats>)
      modifies this
      ensures !isProcessing
      ensures selectedFile == old(selectedFile) && processAllFrames == old(processAllFrames)
      ensures reply.FetchFailed? ==>
        error == Some(CaughtMessage(reply.thrown))
        && processedVideoUrl == old(processedVideoUrl) && processingStats == old(processingStats)
      ensures reply.Response? && !reply.ok ==>
        error == Some(HttpErrorMessage(reply.status, reply.errorBody))
        && processedVideoUrl == old(processedVideoUrl) && processingStats == old(processingStats)
      ensures reply.Response? && reply.ok ==>
        processingStats == StatsAfter(old(processingStats), reply.statsHeader, parse)
        && (reply.blob.ObjectUrl? ==> processedVideoUrl == Some(reply.blob.url) && error == old(error))
        && (reply.blob.BlobFailed? ==>
              processedVideoUrl == old(processedVideoUrl) && error == Some(CaughtMessage(reply.blob.thrown)))
    {
      isProcessing := false;
      match reply
      case FetchFailed(t) =>
        error := Some(CaughtMessage(t));
      case Response(ok, status, errorBody, statsHeader, blob) =>
        if !ok {
          error := Some(HttpErrorMessage(status, errorBody));
        } else {
          processingStats := StatsAfter(processingStats, statsHeader, parse);
          match blob
          case ObjectUrl(url) => processedVideoUrl := Some(url);
          case BlobFailed(t) => error := Some(CaughtMessage(t));
        }
    }

    /** `processVideo` as one run with a known reply. */
    method ProcessVideo(reply: Reply, parse: string -> Option<ProcessingStats>) returns (request: Option<Request>)
      modifies this
      ensures selectedFile == old(selectedFile) && processAllFrames == old(processAllFrames)
      ensures request.None? <==> selectedFile.None?
      ensures request.None? ==>
        (isProcessing == old(isProcessing) && error == old(error)
         && processedVideoUrl == old(processedVideoUrl) && processingStats == old(processingStats))
      ensures request.Some? ==> !isProcessing && request.value.file == selectedFile.value
      ensures request.Some? && reply.Response? && reply.ok && reply.blob.ObjectUrl? ==>
        error.None? && processedVideoUrl == Some(reply.blob.url)
    {
      request := StartProcessing();
      if request.Some? {
        FinishProcessing(reply, parse);
      }
    }

    /** `resetProcessor`. */
    method ResetProcessor()
      modifies this
      ensures selectedFile.None? && processedVideoUrl.None? && processingStats.None? && error.None?
      ensures isProcessing == old(isProcessing) && processAllFrames == old(processAllFrames)
    {
      selectedFile := None;
      processedVideoUrl := None;
      processingStats := None;
      error := None;
    }

    /** The "process all frames" checkbox. */
    method SetProcessAllFrames(on: bool)
      modifies this
      ensures processAllFrames == on
      ensures selectedFile == old(selectedFile) && isProcessing == old(isProcessing)
      ensures processedVideoUrl == old(processedVideoUrl) && processingStats == old(processingStats)
      ensures error == old(error)
    {
      processAllFrames := on;
    }
  }

  /** The statistics after the header step: a non-empty header is rewritten
      and parsed, and only a successful parse replaces the old value. */
  function StatsAfter(previous: Option<ProcessingStats>, header: Option<string>,
                      parse: string -> Option<ProcessingStats>): (r: Option<ProcessingStats>)
    ensures header.None? || header.value == "" ==> r == previous
    ensures header.Some? && header.value != "" && parse(ReplaceQuotes(header.value)).None? ==> r == previous
    ensures header.Some? && header.value != "" && parse(ReplaceQuotes(header.value)).Some? ==>
      r == parse(ReplaceQuotes(header.value))
  {
    if header.Some? && header.value != "" then
      match parse(ReplaceQuotes(header.value))
      case Some(st) => Some(st)
      case None => previous
    else previous
  }

  /** A selected file survives a run of `processVideo`, and an accepted one
      can always be processed. */
  method SelectThenProcess(p: VideoProcessor, f: FileInfo, reply: Reply,
                           parse: string -> Option<ProcessingStats>) returns (request: Option<Request>)
    requires Validate(f).None?
    modifies p
    ensures request.Some? && request.value.file == f && p.selectedFile == Some(f) && !p.isProcessing
  {
    p.HandleFileSelect(Some(f));
    request := p.ProcessVideo(reply, parse);
  }
}
