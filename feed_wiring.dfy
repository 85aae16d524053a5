/** How the live feed reaches the connection (src/components/VideoFeed.tsx
    with src/app/page.tsx). Each `useWebSocket()` call owns its own socket
    handle. The page connects its instance; the feed takes `sendFrame` and
    `isConnected` from an instance of its own, which nothing connects. */
module FeedWiring {
  import opened Types
  import opened Store
  import opened VideoFeed
  import opened Connection

  /** As written: the feed asks its own, never-connected instance. Whatever
      the page's connection and the store say, the capture effect never
      starts the timer (or, before mount, does nothing), and a frame handed
      to that instance is never sent. */
  method FeedOwnInstance(store: DetectionStore, q: FrameQueue, mounted: bool, videoActive: bool,
                         processAllFrames: bool, frame: string, now: int)
    returns (timer: Option<Delay>, sent: bool)
    requires q.Valid()
    modifies q
    ensures timer.None? && !sent
  {
    var feedSocket := new ConnectionManager(store);
    timer := q.CaptureEffect(mounted, videoActive, store.connectionStatus.connected,
                             feedSocket.IsOpen(), processAllFrames, store.targetFps);
    sent := feedSocket.SendFrame(frame, now, false);
  }

  /** Corrected: the feed asks the connection the page opened. Once that
      socket is open and the store says connected, a mounted feed with
      active video starts capturing at `CaptureInterval`, and its frames are
      sent. */
  method FeedSharedInstance(m: ConnectionManager, q: FrameQueue, videoActive: bool,
                            processAllFrames: bool, frame: string, now: int)
    returns (timer: Option<Delay>, sent: bool)
    requires q.Valid() && m.IsOpen() && m.store.connectionStatus.connected
    modifies q, m`outbox
    ensures videoActive ==> timer == Some(CaptureInterval(processAllFrames, m.store.targetFps))
    ensures sent && m.outbox == old(m.outbox) + [FrameEnvelope(frame, now, m.store.settings)]
  {
    timer := q.CaptureEffect(true, videoActive, m.store.connectionStatus.connected,
                             m.IsOpen(), processAllFrames, m.store.targetFps);
    sent := m.SendFrame(frame, now, false);
  }
}
