# RoboGaje frontend: a Dafny model of its client logic

RoboGaje's frontend is a browser client for a crowd-detection backend. It
captures webcam frames and queues them for sending over a WebSocket, stores
each detection result and the running statistics in one shared store, shows
the server's alerts in a dismissable banner, and offers a separate upload
panel that sends a whole video file for processing. (As written, the live
feed asks a WebSocket instance of its own that is never connected, so it
never sends a frame; see "## Findings".) This project models that client
logic in Dafny and proves properties of the model:

- `types.dfy` (`Types`): the wire records of `src/lib/types.ts` as datatypes.
- `seqs.dfy` (`Seqs`): an order-preserving `Filter` (JavaScript's
  `Array.prototype.filter`) and a suffix function, with their laws.
- `store.dfy` (`Store`): the store of `src/store/detection.ts`, as the class
  `DetectionStore` whose setters are specified against the value-level
  `StoreState`.
- `video_feed.dfy` (`VideoFeed`): the bounded frame queue and its drain loop
  (a class over a `seq`), the capture-interval rule, and the bounding-box
  normalisation and scaling used to draw the overlay.
- `connection.dfy` (`Connection`): the WebSocket manager of
  `src/hooks/useWebSocket.ts`, as a class holding the socket handle, the
  reconnect-pending flag and the sent envelopes.
- `alerts.dfy` (`AlertSystem`): the alert banner's state transitions and its
  level-to-style mapping.
- `webcam.dfy` (`Webcam`): camera start, with error classification and the
  single relaxed retry, plus stop and frame capture.
- `video_processor.dfy` (`VideoProcessor`): upload validation, one upload
  round trip with all of its error paths, and reset.
- `feed_wiring.dfy` (`FeedWiring`): how the live feed's capture effect and
  sends reach a connection, as written and as intended.

The outside world is passed in as parameters. Examples are whether a
`WebSocket.send` returns true (`accepted: nat -> bool`, indexed by attempt),
what `getUserMedia` resolves or rejects with, and what `fetch` replies.
Transport events become method calls, and the reconnect timer becomes a flag.

Behaviour of the code worth stating up front:

- **Reconnecting.** Reconnection uses a flat 3000 ms delay. There is no
  exponential backoff, no attempt limit and no connection-open timeout.
- **Manual disconnect.** The only thing that suppresses a reconnect is close
  code 1000. That is the code a manual `disconnect()` sends, and the code the
  close event carries when the socket was open. A socket closed while still
  CONNECTING reports 1006 instead, and a reconnect follows.
- **Connect while connecting.** `connect()` returns early only when the
  socket is already OPEN. A second call while CONNECTING replaces the handle.
- **Frame mode.** `processAllFrames` is read from the store in
  `VideoFeed.tsx:34`, but the store has no such field. It is therefore always
  `undefined` there, and the live feed always takes the skip-frame branch of
  the interval rule. `CaptureInterval` takes the flag as a parameter, so both
  branches are modelled.
- **Envelope threshold.** `sendFrame` sends `settings.confidence_threshold`,
  which the store's settings do not have. `JSON.stringify` drops the key, so
  an envelope's `confidenceThreshold` is always `None`.

## Model

| member | source | states |
|---|---|---|
| Seqs.Filter | src/components/AlertSystem.tsx:16-19 | the result keeps exactly the elements that satisfy the predicate and is no longer than the input |
| Seqs.FilterConcat | src/components/AlertSystem.tsx:36-39 | filtering distributes over concatenation, so kept elements stay in their order |
| Seqs.FilterIdempotent | src/components/AlertSystem.tsx:36-39 | filtering twice with one predicate equals filtering once |
| Seqs.FilterDropsOne | src/components/AlertSystem.tsx:48 | removing one rejected element from `xs + [x] + ys` leaves `xs + ys` in order |
| Seqs.FilterNone | src/components/AlertSystem.tsx:16-19 | a predicate false on every element leaves an empty result |
| Seqs.FilterAll | src/components/AlertSystem.tsx:16-19 | a predicate true on every element leaves the input unchanged |
| Seqs.Last | src/components/VideoFeed.tsx:258-267 | the result is the input's last n elements (or all of them), in the same order |
| Types.Status | src/lib/types.ts:86-91 | `{ connected }` alone: no client id, server time or error |
| Store.MergeSettings | src/store/detection.ts:89-92 | each settings key present in the patch takes the patch's value; every absent key keeps the old value |
| Store.MergeSettingsLaws | src/store/detection.ts:89-92 | an empty patch changes nothing, a patch applied twice acts once, and two patches in a row act as the later laid over the earlier |
| Store.MergeStatistics | src/store/detection.ts:94-97 | each statistics key present in the patch takes the patch's value; every absent key keeps the old value |
| Store.MergeStatisticsLaws | src/store/detection.ts:94-97 | an empty patch changes nothing, and a patch applied twice acts once |
| Store.WithResult | src/store/detection.ts:75-87 | stores the result, adds one to frames processed, sets latency to the result's processing time, and leaves every other field as it was |
| Store.WithResultTwice | src/store/detection.ts:75-87 | storing the same result twice counts two frames and keeps that result and its latency |
| Store.ApplyResultsCounts | src/store/detection.ts:75-87 | after n results the frame count has grown by n; the latest result and the latency come from the last result; settings and connection status are untouched |
| Store.InitialState | src/store/detection.ts:49-68 | disconnected, no result and no video error, thresholds 0.3 and 0.5, the given crowd threshold, zero statistics, alerts shown, video inactive, 5 fps |
| Store.DetectionStore.constructor | src/store/detection.ts:70-71 | the new store holds the initial state |
| Store.DetectionStore.SetConnectionStatus | src/store/detection.ts:73 | replaces the whole status record; nothing else changes |
| Store.DetectionStore.SetLatestResult | src/store/detection.ts:75-87 | the new state is `WithResult` of the old one |
| Store.DetectionStore.UpdateSettings | src/store/detection.ts:89-92 | settings become `MergeSettings(old, patch)`; nothing else changes |
| Store.DetectionStore.UpdateStatistics | src/store/detection.ts:94-97 | statistics become `MergeStatistics(old, patch)`; nothing else changes |
| Store.DetectionStore.SetIsProcessing | src/store/detection.ts:99 | sets only the processing flag |
| Store.DetectionStore.SetShowAlerts | src/store/detection.ts:101 | sets only the show-alerts flag |
| Store.DetectionStore.SetIsVideoActive | src/store/detection.ts:103 | sets only the video-active flag |
| Store.DetectionStore.SetVideoError | src/store/detection.ts:105 | sets only the video error |
| Store.DetectionStore.SetTargetFps | src/store/detection.ts:107 | sets only the target rate |
| Store.DetectionStore.Reset | src/store/detection.ts:109 | whatever the state was, it becomes the initial state again |
| VideoFeed.Push | src/components/VideoFeed.tsx:258-267 | below the bound the frame is appended; at the bound the oldest frame goes and the new one is appended; the bound of 10 is kept |
| VideoFeed.PushAllKeepsMostRecent | src/components/VideoFeed.tsx:258-267 | after any number of enqueues the queue is exactly the 10 most recent frames, in capture order |
| VideoFeed.Drained | src/components/VideoFeed.tsx:198-227 | a drain that sends every frame leaves nothing; one that stops early loses exactly the one frame whose send failed, so sent, lost and left add up to the queue |
| VideoFeed.DrainedShape | src/components/VideoFeed.tsx:198-227 | a drain sends a prefix of the queue in FIFO order, every send in it succeeded, and when it stops early the failed frame is lost and the rest stay queued in order |
| VideoFeed.DrainedAllAccepted | src/components/VideoFeed.tsx:204-216 | when every send succeeds the whole queue goes out in order and nothing is left |
| VideoFeed.FrameQueue.constructor | src/components/VideoFeed.tsx:38-39 | the queue starts empty, not draining |
| VideoFeed.FrameQueue.Enqueue | src/components/VideoFeed.tsx:258-267 | the queue becomes `Push(old, frame)`, stays within the bound, and the flag is unchanged |
| VideoFeed.FrameQueue.Drain | src/components/VideoFeed.tsx:198-227 | nothing happens when already draining or empty; otherwise the frames sent and the frames left are those `Drained` gives, and the flag is lowered again |
| VideoFeed.FrameQueue.ProcessFrame | src/components/VideoFeed.tsx:230-271 | a failed capture guard changes nothing; a tick during a suspended drain only enqueues the frame and sends nothing; otherwise the new frame is enqueued and the queue is drained as `Drained` says; the flag ends as it began |
| VideoFeed.FrameQueue.Flush | src/components/VideoFeed.tsx:315-316 | the queue is empty and the flag is lowered |
| VideoFeed.FrameQueue.CaptureEffect | src/components/VideoFeed.tsx:274-328 | before mount nothing happens; with video active and both connection checks true the timer uses `CaptureInterval`; otherwise the queue is wiped and the flag lowered |
| VideoFeed.CaptureInterval | src/components/VideoFeed.tsx:293-301 | the interval expression is `Infinity` exactly at 0 fps and the floor for a negative rate; at a positive rate it is the larger of the floor (100 ms, 500 ms in skip mode) and the budget over the rate (1000 ms, 2000 ms in skip mode): never below either, and equal to the budget over the rate whenever above the floor |
| VideoFeed.IntervalAntitone | src/components/VideoFeed.tsx:293-301 | a higher positive target rate never gives a longer interval |
| VideoFeed.SkipModeIsSlower | src/components/VideoFeed.tsx:293-301 | at the same positive rate, skip-frame mode never captures more often than every-frame mode |
| VideoFeed.IntervalFloors | src/components/VideoFeed.tsx:293-301 | from 10 fps every-frame mode sits at its 100 ms floor; from 4 fps skip-frame mode sits at its 500 ms floor |
| VideoFeed.IntervalAtDefaultRate | src/components/VideoFeed.tsx:293-301 | at the default 5 fps, every-frame mode captures every 200 ms and skip-frame mode every 500 ms |
| VideoFeed.FourNumbers | src/components/VideoFeed.tsx:142-144 | a box is produced exactly when none of the four coordinates is NaN |
| VideoFeed.Normalise | src/components/VideoFeed.tsx:126-144 | an array gives its first four entries and needs at least four numbers; an object gives x1, y1, x2, y2; any other shape, or a NaN among the four, gives no box |
| VideoFeed.NormaliseShapesAgree | src/components/VideoFeed.tsx:126-144 | the array and the object spelling of one box normalise to the same box |
| VideoFeed.ScaleBox | src/components/VideoFeed.tsx:147-153 | the top-left corner and the far corner are the box's corners scaled per axis |
| VideoFeed.ScaleBoxSize | src/components/VideoFeed.tsx:152-153 | width and height are the box's own extents times the scales, so a well-formed box under non-negative scales has non-negative size |
| VideoFeed.BoxesToDraw | src/components/VideoFeed.tsx:120-156 | at most one rectangle per detection, and exactly one each when every box is valid |
| VideoFeed.BoxesToDrawAt | src/components/VideoFeed.tsx:120-156 | when every box is valid, the i-th rectangle is the i-th detection's scaled box |
| VideoFeed.BoxesToDrawConcat | src/components/VideoFeed.tsx:124-156 | detections are drawn independently: the rectangles of two lists joined are the rectangles of each, in order |
| VideoFeed.BoxesToDrawOne | src/components/VideoFeed.tsx:126-153 | one detection draws its scaled box when the box normalises and nothing otherwise |
| VideoFeed.SkipsOnlyInvalid | src/components/VideoFeed.tsx:133-143 | a detection with a bad box is skipped and every other detection is still drawn, in order |
| VideoFeed.BaseLabel | src/components/VideoFeed.tsx:165 | the caption is the class name if non-empty, else the type if non-empty, else "Detection"; it is never empty |
| Connection.FrameEnvelope | src/hooks/useWebSocket.ts:117-127 | a `process_frame` envelope carrying the frame, the send time and the store's crowd threshold, with no confidence threshold |
| Connection.Dispatch | src/hooks/useWebSocket.ts:61-86 | a message without `data`, or unparseable text, does nothing; `connected` sets a connected status with the session fields; `error` sets a connected status with the message; a `detection_result` with a result stores it; other tags do nothing; every status it sets is connected and consistent |
| Connection.DispatchOnlyKnownTags | src/hooks/useWebSocket.ts:64-82 | only messages with `data` and the tags `connected`, `detection_result` or `error` ever lead to a store update |
| Connection.ConnectionManager.constructor | src/hooks/useWebSocket.ts:6-7 | no socket, no pending reconnect, nothing sent |
| Connection.ConnectionManager.IsOpen | src/hooks/useWebSocket.ts:138-140 | connected means there is a socket and its state is OPEN |
| Connection.ConnectionManager.Connect | src/hooks/useWebSocket.ts:14-95 | clears the pending reconnect; an open socket is kept; off the browser nothing happens; a constructor failure reports "Failed to create connection"; otherwise a fresh socket in CONNECTING replaces the handle |
| Connection.ConnectionManager.OnOpen | src/hooks/useWebSocket.ts:35-38 | the socket becomes open and the status becomes connected |
| Connection.ConnectionManager.OnClose | src/hooks/useWebSocket.ts:40-51 | the status becomes disconnected, and a reconnect timer of 3000 ms is scheduled exactly when the close code is not 1000 |
| Connection.ConnectionManager.OnError | src/hooks/useWebSocket.ts:53-59 | the status becomes disconnected with the backend-unreachable message |
| Connection.ConnectionManager.OnMessage | src/hooks/useWebSocket.ts:61-86 | the store changes exactly as `Dispatch` of the message says |
| Connection.ConnectionManager.ReconnectTimerFires | src/hooks/useWebSocket.ts:46-50 | the timer calls `connect` again, with every outcome `Connect` states: an open socket kept, nothing off the browser, a reported constructor failure, or a fresh CONNECTING socket; the flag is cleared |
| Connection.ConnectionManager.Disconnect | src/hooks/useWebSocket.ts:97-109 | the pending reconnect is cancelled, the handle is dropped, and the status becomes disconnected when there was a socket |
| Connection.ConnectionManager.SendFrame | src/hooks/useWebSocket.ts:111-136 | returns true exactly when the socket is open and `send` does not throw, and only then is the envelope appended to the sent ones |
| Connection.ManualDisconnectDoesNotReconnect | src/hooks/useWebSocket.ts:97-109 | a manual disconnect of an open socket, whose close event carries 1000, leaves no reconnect pending and the status disconnected |
| Connection.DisconnectWhileConnectingReconnects | src/hooks/useWebSocket.ts:45-50 | a manual disconnect of a socket still CONNECTING, whose close event carries 1006, leaves a reconnect pending |
| Connection.UnexpectedCloseReconnects | src/hooks/useWebSocket.ts:45-50 | any close code other than 1000 leaves a reconnect pending, however many came before |
| Connection.HappyPath | src/hooks/useWebSocket.ts:14-136 | connect, open, `connected`, one send and one result give an open socket, the session status, one sent envelope, the stored result and one counted frame |
| AlertSystem.Undismissed | src/components/AlertSystem.tsx:16-19 | keeps exactly the incoming alerts whose type-and-timestamp key has not been dismissed |
| AlertSystem.KeyOf | src/components/AlertSystem.tsx:17 | the dismissal key of an alert is its type and timestamp |
| AlertSystem.KindsOf | src/components/AlertSystem.tsx:24-25 | the set of types occurring among the alerts |
| AlertSystem.MergeIncoming | src/components/AlertSystem.tsx:14-31 | with no undismissed incoming alerts nothing changes; otherwise the list is the old alerts whose type none of the survivors has, in order, followed by the survivors |
| AlertSystem.MergeReplacesKinds | src/components/AlertSystem.tsx:22-27 | after a merge, every alert of a replaced type is one of the new ones |
| AlertSystem.MergeKeepsOrder | src/components/AlertSystem.tsx:24-27 | the old alerts a merge keeps stay in their order, ahead of the new ones |
| AlertSystem.Fresh | src/components/AlertSystem.tsx:37-38 | an alert stays unless it is info and at least 5000 ms old |
| AlertSystem.ExpireInfo | src/components/AlertSystem.tsx:34-43 | keeps exactly the alerts that are not info, or are info and younger than 5000 ms |
| AlertSystem.ExpireInfoLaws | src/components/AlertSystem.tsx:36-39 | expiry distributes over concatenation, is idempotent, and removes nothing when every alert is fresh |
| AlertSystem.DismissAlert | src/components/AlertSystem.tsx:45-49 | the alert's key joins the dismissed set and that alert, and only it, leaves the list |
| AlertSystem.DismissKeepsOrder | src/components/AlertSystem.tsx:45-49 | dismissing one alert keeps the others in their order |
| AlertSystem.DismissAllAsWritten | src/components/AlertSystem.tsx:51-54 | "Dismiss All" as written empties both the list and the dismissed set |
| AlertSystem.DismissAllAsWrittenReturns | src/components/AlertSystem.tsx:14-31 | after "Dismiss All" as written, the merge's next run with the same non-empty alerts brings every one back |
| AlertSystem.DismissAll | src/components/AlertSystem.tsx:51-54 | the corrected "Dismiss All" empties the list and remembers every shown alert's key, and earlier dismissals too |
| AlertSystem.DismissAllStays | src/components/AlertSystem.tsx:14-31 | after the corrected "Dismiss All", re-running the merge on alerts that were shown or dismissed leaves the list empty |
| AlertSystem.SeverityOf | src/components/AlertSystem.tsx:56-68 | levels other than critical, error and warning all fall to the info default |
| AlertSystem.AlertIcon | src/components/AlertSystem.tsx:56-68 | the info icon is chosen exactly for the default case |
| AlertSystem.AlertStyles | src/components/AlertSystem.tsx:70-82 | the blue style is chosen exactly for the default case |
| AlertSystem.LevelsDistinguished | src/components/AlertSystem.tsx:56-82 | two levels of different severity get different icons and different styles |
| AlertSystem.RenderingAfterDismissAll | src/components/AlertSystem.tsx:84-86 | nothing is rendered with alerts hidden, with no alerts, or after either "Dismiss All"; the button needs a shown banner and at least two alerts |
| AlertSystem.Renders | src/components/AlertSystem.tsx:84-86 | the banner shows only with alerts enabled and at least one alert |
| AlertSystem.ShowsDismissAll | src/components/AlertSystem.tsx:145 | the "Dismiss All" button shows only for two or more alerts in a shown banner |
| AlertSystem.DismissingOneOfTwoHidesButton | src/components/AlertSystem.tsx:45-49 | with the merge run only for new results (the corrected click), two alerts show the button and dismissing one keeps the banner but hides the button |
| AlertSystem.DismissClick | src/components/AlertSystem.tsx:14-49 | a click as written, followed by the re-run merge: the key joins the dismissed set, the dismissed alert is gone, and every alert left was shown before or is in the latest result |
| AlertSystem.DismissClickRestores | src/components/AlertSystem.tsx:14-49 | after a click, every alert of the latest result whose key is not dismissed is shown, including info alerts that had expired |
| AlertSystem.DismissClickKeepsButton | src/components/AlertSystem.tsx:14-49 | with `a` and `b` shown out of a latest `[a, b, c]` of three types, dismissing `a` shows `[b, c]`, and the "Dismiss All" button stays |
| AlertSystem.DismissClickOneOfTwo | src/components/AlertSystem.tsx:14-49 | when the latest result offers nothing beyond the other shown alert, a click on one of two alerts keeps the banner and hides the button |
| Webcam.Track.constructor | src/hooks/useWebcam.ts:128-145 | a new track is live |
| Webcam.ErrorMessage | src/hooks/useWebcam.ts:88-121 | each of the four known error names gets its own fixed message, any other `Error` keeps its own message, and a non-`Error` gets the generic one |
| Webcam.KnownCausesDistinguished | src/hooks/useWebcam.ts:92-121 | two different known error names never get the same message |
| Webcam.Webcam.constructor | src/hooks/useWebcam.ts:5-7 | no stream and nothing attached |
| Webcam.Webcam.Start | src/hooks/useWebcam.ts:15-126 | clears the error first; without a camera API reports the unsupported message and attaches nothing; a granted stream is attached when the video element exists; a classified failure sets its message and marks video inactive; an `OverconstrainedError` gets one relaxed retry, whose failure reports the incompatible-camera message; only the store's error and active flag change |
| Webcam.Webcam.OnPlaybackStarted | src/hooks/useWebcam.ts:69-73 | marks video active and changes nothing else |
| Webcam.Webcam.OnPlaybackFailed | src/hooks/useWebcam.ts:74-77 | sets the playback-failed message and changes nothing else |
| Webcam.Webcam.OnVideoElementError | src/hooks/useWebcam.ts:80-83 | sets the video-element message and changes nothing else |
| Webcam.Webcam.Stop | src/hooks/useWebcam.ts:128-145 | every track of the old stream is stopped, the stream is dropped, the video is detached, and video is marked inactive, with or without a stream |
| Webcam.StopTwice | src/hooks/useWebcam.ts:128-145 | a second stop leaves the store as the first left it |
| Webcam.Webcam.CaptureFrame | src/hooks/useWebcam.ts:147-174 | a frame comes back exactly when both elements exist, video is active, a 2D context exists and encoding succeeds, and it is the encoded image |
| VideoProcessor.Validate | src/components/VideoProcessor.tsx:34-43 | a file is accepted exactly when its type starts with `video/` and its size is at most 100 MiB; the type check comes first |
| VideoProcessor.StartsWith | src/components/VideoProcessor.tsx:34 | `startsWith`: the text begins with the prefix |
| VideoProcessor.ValidateBoundary | src/components/VideoProcessor.tsx:40-43 | exactly 100 MiB is accepted, one byte more is rejected as too large, and a non-video file is rejected as not a video even when too large |
| VideoProcessor.ReplaceQuotes | src/components/VideoProcessor.tsx:82 | the same length, with every single quote turned into a double quote and every other character kept |
| VideoProcessor.ReplaceQuotesLaws | src/components/VideoProcessor.tsx:82 | no single quote is left, a text without single quotes is unchanged, and rewriting twice is rewriting once |
| VideoProcessor.ReplaceQuotesConcat | src/components/VideoProcessor.tsx:82 | the rewrite distributes over concatenation |
| VideoProcessor.Decimal | src/components/VideoProcessor.tsx:75 | the text is non-empty, all decimal digits, with no leading zero |
| VideoProcessor.DecimalRoundTrip | src/components/VideoProcessor.tsx:75 | reading the digits back gives the status number |
| VideoProcessor.HttpErrorMessage | src/components/VideoProcessor.tsx:73-76 | an unreadable body gives "Unknown error", a non-empty detail gives itself, and otherwise the message is "HTTP " and the status; never empty |
| VideoProcessor.CaughtMessage | src/components/VideoProcessor.tsx:94-95 | an `Error`'s own message, otherwise "Processing failed" |
| VideoProcessor.StatsAfter | src/components/VideoProcessor.tsx:79-87 | a missing or empty header, or one that fails to parse after the quote rewrite, leaves the old statistics; a successful parse replaces them |
| VideoProcessor.VideoProcessor.constructor | src/components/VideoProcessor.tsx:20-25 | nothing selected, not processing, no result, no error, all-frames mode on |
| VideoProcessor.VideoProcessor.HandleFileSelect | src/components/VideoProcessor.tsx:30-50 | no file changes nothing; a rejected file sets the message and keeps the selection; an accepted file is selected and clears error, processed URL and statistics |
| VideoProcessor.VideoProcessor.StartProcessing | src/components/VideoProcessor.tsx:52-71 | without a selection nothing happens; otherwise processing is on, the error is cleared and the request carries the file, the store's two thresholds and the frame mode |
| VideoProcessor.VideoProcessor.FinishProcessing | src/components/VideoProcessor.tsx:73-98 | processing is off on every path; a failed fetch or a non-OK status sets the matching message and keeps URL and statistics; an OK reply updates the statistics as `StatsAfter` says, then sets the URL or the blob failure's message |
| VideoProcessor.VideoProcessor.ProcessVideo | src/components/VideoProcessor.tsx:52-99 | nothing happens without a selection; otherwise processing ends off, the request carries the selected file, and a fully successful reply leaves no error and the new URL |
| VideoProcessor.SelectThenProcess | src/components/VideoProcessor.tsx:30-99 | an accepted file, once selected, is the one uploaded, and processing ends off |
| VideoProcessor.VideoProcessor.ResetProcessor | src/components/VideoProcessor.tsx:112-120 | selection, processed URL, statistics and error are all cleared; the flags are kept |
| VideoProcessor.VideoProcessor.SetProcessAllFrames | src/components/VideoProcessor.tsx:25 | sets only the frame-mode flag |
| FeedWiring.FeedOwnInstance | src/components/VideoFeed.tsx:23 | with the feed's own, never-connected instance, the capture effect never starts a timer and a frame handed to it is never sent, whatever the store says |
| FeedWiring.FeedSharedInstance | src/components/VideoFeed.tsx:276-303 | with the page's open connection, a mounted feed with active video captures at `CaptureInterval` and its frames are sent |

## Left out

- Canvas painting (`strokeRect`, `fillText`, `measureText`, `clearRect`, `drawImage`) and element geometry are browser calls. The model stops at the rectangles and captions that would be drawn.
- The label's confidence text (`toFixed`) is browser float formatting and is not modelled.
- JPEG encoding by `toDataURL` and what `getUserMedia` does inside are opaque. Their outcomes are parameters.
- The real WebSocket, `fetch`, `setTimeout` and `setInterval` are not modelled, and neither are blob/object URLs or the download link. Socket events are method calls, the reconnect timer is a flag, and the capture timer is the `Delay` value `CaptureEffect` returns.
- The 50 ms `await` inside the drain is a yield. Re-entrancy is modelled by the draining flag, not by concurrency, and `Drain` runs as one step. So the model cannot show a pause or cleanup (VideoFeed.tsx:315-316, 325-326) lowering the flag while a drain waits, after which a new frame starts a second drain beside the first one and the 50 ms spacing between sends no longer holds.
- `Connection.ConnectionManager.OnOpen`, `OnClose` and `OnError` act on whichever socket is current. Events of an older, replaced socket, which the code also handles through the same closures, are not told apart.
- Connection.ConnectionManager.ReconnectTimerFires: only one pending timer is represented. Overwriting a still-running timer's handle, which could leave an uncancellable timer, is not captured.
- AlertSystem.DismissAlert: removes every entry equal to the given alert by value. The code compares object references, which only differs when identical alert objects appear twice.
- The dismissal key is modelled as the pair (type, timestamp), not as the string `${type}-${timestamp}`. String keys of different pairs that render to the same text are therefore not conflated.
- The 5-second auto-expiry timer is modelled by `ExpireInfo` at a given `now`. When the timer fires is not modelled.
- The `downloadProcessedVideo` link and the rendering of the panels are not modelled (DOM only). `src/components/StatsPanel.tsx`, `src/app/page.tsx` and `next.config.js` are not part of this model.
- VideoProcessor.StatsAfter: `JSON.parse` is a parameter returning a statistics record or failure. A header that parses to something other than a statistics object is not distinguished.
- VideoProcessor.HttpErrorMessage: a `detail` that is a truthy non-string is not modelled; details are strings.
- Store.InitialState: `parseInt` of the environment's crowd threshold is a parameter. A `NaN` from a malformed value is not represented.
- Webcam.Webcam.Start: the state is not re-checked between the awaited calls. Only the final outcome of each request is modelled.
- VideoFeed.BaseLabel: the code also tries `detection.class` between `class_name` and `type`. That key is not part of the detection record, so the model treats it as always absent.
- Connection.Dispatch: a `detection_result` whose `data` is missing, or is present but not shaped like a detection result, is ignored; the model's results are well-formed records only. In the code, a missing `data` makes `setLatestResult` store `undefined` as the latest result and then throw reading `processing_time`, and the throw is swallowed. Any other `data` object is stored as the latest result without a throw, counts as one more processed frame, and sets the latency to `undefined`: the model ignores a message that the program counts as a processed frame.
- Connection.ConnectionManager.OnClose: the close code is an input; which code the transport reports is not modelled. `DisconnectWhileConnectingReconnects` shows what follows when a manual disconnect meets a 1006 close.
- Integer widths are not an issue here. Frame counts and timestamps are JavaScript numbers well within exact range, and are modelled as unbounded integers; coordinates and rates are reals.

## Findings

| source | as written | input that shows it | evidently intended | confidence | as-written member | corrected member |
|---|---|---|---|---|---|---|
| src/components/AlertSystem.tsx:51-54 | "Dismiss All" empties the active list and also empties the dismissed set; the merge effect depends on that set (line 31), so it runs again with the same latest result | a latest result with one or more alerts, then "Dismiss All": every one of those alerts is shown again | dismissed alerts stay dismissed, so the shown alerts' keys are remembered (as `dismissAlert` does for one alert) | not executed | AlertSystem.DismissAllAsWrittenReturns | AlertSystem.DismissAllStays |
| src/components/AlertSystem.tsx:45-49 | each click on an alert's "X" stores a new dismissed `Set`; the merge effect depends on it (line 31), so it runs again with the same latest result | shown alerts `a` and `b` of a latest result `[a, b, c]` whose info alert `c` had expired: dismissing `a` shows `b` and `c`, and the "Dismiss All" button stays | the merge runs only for a new result ("when new results come in", line 13), so a click removes one alert and brings none back | not executed | AlertSystem.DismissClickKeepsButton | AlertSystem.DismissingOneOfTwoHidesButton |
| src/components/VideoFeed.tsx:23 | the feed takes `sendFrame` and `isConnected` from its own `useWebSocket()` instance, whose socket handle nothing connects; only the page's instance connects (src/app/page.tsx:34, 46) | any run: the capture effect's `isConnected()` is false, so it pauses and no live frame is sent | the feed uses the page's connection, one shared socket | not executed | FeedWiring.FeedOwnInstance | FeedWiring.FeedSharedInstance |
