/** The connection manager (src/hooks/useWebSocket.ts): one socket handle,
    one pending-reconnect timer, and handlers that write the connection
    status and results into the shared store. The transport is abstract:
    its events are method calls, the timer is a flag. */
module Connection {
  import opened Types
  import opened Store

  /** `WebSocket.readyState`, with CLOSING merged into `Closed`: a close the
      server or the network starts can leave the held socket CLOSING, but no
      code path tells it apart, since `isConnected` and `connect` test only
      for OPEN. */
  datatype ReadyState = Connecting | Open | Closed

  /** A socket created by `connect`; `generation` tells successive sockets apart. */
  datatype Socket = Socket(generation: nat, readyState: ReadyState)

  /** The close code sent by `disconnect`, and the only one that does not
      schedule a reconnect. */
  const NormalClosure: int := 1000

  /** The close code of a connection that failed, which is what a socket
      closed while still CONNECTING reports (as the WebSocket standard
      defines `close()` in that state). */
  const AbnormalClosure: int := 1006

  /** The flat reconnect delay; the code has no backoff and no attempt limit. */
  const ReconnectDelayMs: nat := 3000

  const ConnectionFailedMessage: string := "Connection failed - Backend mungkin belum berjalan"
  const CreateFailedMessage: string := "Failed to create connection"

  /** The `settings` of an outbound envelope. The code reads
      `settings.confidence_threshold`, which the store's settings do not
      have; the value is `undefined` and `JSON.stringify` drops the key,
      here `None`. */
  datatype FrameSettings = FrameSettings(confidenceThreshold: Option<real>, crowdThreshold: int)

  /** `{ event: 'process_frame', data: { frame, timestamp, settings } }`. */
  datatype Envelope = Envelope(event: string, frame: string, timestamp: int, settings: FrameSettings)

  function FrameEnvelope(frame: string, now: int, settings: Settings): (e: Envelope)
    ensures e.event == "process_frame" && e.frame == frame && e.timestamp == now
    ensures e.settings.crowdThreshold == settings.crowdThreshold
    ensures e.settings.confidenceThreshold.None?
  {
    Envelope("process_frame", frame, now, FrameSettings(None, settings.crowdThreshold))
  }

  /** The `data` of an inbound message, as far as the handlers read it:
      the session fields, the error text, and `result`, the whole `data` read
      as a detection result (`None` when it does not have that shape). */
  datatype Payload = Payload(
    clientId: Option<string>,
    serverTime: Option<string>,
    message: Option<string>,
    result: Option<DetectionResult>)

  /** What `JSON.parse` made of one inbound frame; `data` is `None` when the
      message has no `data` member. */
  datatype Inbound = Unparseable | Message(event: string, data: Option<Payload>)

  /** What a message does to the store. */
  datatype Action = SetStatus(status: ConnectionStatus) | SetResult(result: DetectionResult) | Ignore

  /** The `onmessage` dispatch on the event tag. Reading a field of a
      missing `data` throws, and the handler's `catch` swallows it. */
  function Dispatch(m: Inbound): (a: Action)
    ensures m.Unparseable? ==> a.Ignore?
    ensures m.Message? && m.data.None? ==> a.Ignore?
    ensures m.Message? && m.data.Some? && m.event == "connected" ==>
      a == SetStatus(ConnectionStatus(true, m.data.value.clientId, m.data.value.serverTime, None))
    ensures m.Message? && m.data.Some? && m.event == "error" ==>
      a == SetStatus(ConnectionStatus(true, None, None, m.data.value.message))
    ensures m.Message? && m.data.Some? && m.event == "detection_result" && m.data.value.result.Some? ==>
      a == SetResult(m.data.value.result.value)
    ensures m.Message? && m.data.Some? && m.event == "detection_result" && m.data.value.result.None? ==>
      a.Ignore?
    ensures m.Message? && m.event !in {"connected", "detection_result", "error"} ==> a.Ignore?
    ensures a.SetStatus? ==> a.status.connected && SessionConsistent(a.status)
  {
    match m
    case Unparseable => Ignore
    case Message(event, data) =>
      if data.None? then Ignore
      else if event == "connected" then
        SetStatus(ConnectionStatus(true, data.value.clientId, data.value.serverTime, None))
      else if event == "detection_result" then
        if data.value.result.Some? then SetResult(data.value.result.value) else Ignore
      else if event == "error" then
        SetStatus(ConnectionStatus(true, None, None, data.value.message))
      else Ignore
  }

  /** Only the three known tags ever change the store. */
  lemma DispatchOnlyKnownTags(m: Inbound)
    ensures !Dispatch(m).Ignore? ==>
      m.Message? && m.data.Some? && m.event in {"connected", "detection_result", "error"}
  {
  }

  class ConnectionManager {
    /** `socketRef.current`. */
    var socket: Option<Socket>
    /** `reconnectTimeoutRef.current != null`. */
    var reconnectPending: bool
    /** How many sockets `connect` has created. */
    var created: nat
    /** Every envelope handed to `WebSocket.send`, in order. */
    var outbox: seq<Envelope>
    const store: DetectionStore

    constructor (store: DetectionStore)
      ensures this.store == store
      ensures socket.None? && !reconnectPending && created == 0 && outbox == []
    {
      this.store := store;
      socket := None;
      reconnectPending := false;
      created := 0;
      outbox := [];
    }

    /** `isConnected()`. */
    predicate IsOpen()
      reads this
    {
      socket.Some? && socket.value.readyState == Open
    }

    /** `connect()`. `inBrowser` is `typeof window !== 'undefined'`;
        `constructorThrows` is whether `new WebSocket(url)` throws. */
    method Connect(inBrowser: bool, constructorThrows: bool)
      modifies this, store
      ensures !reconnectPending && outbox == old(outbox)
      ensures old(IsOpen()) ==>
        socket == old(socket) && created == old(created) && store.State() == old(store.State())
      ensures !old(IsOpen()) && inBrowser && !constructorThrows ==>
        created == old(created) + 1 && socket == Some(Socket(created, Connecting))
        && store.State() == old(store.State())
      ensures !old(IsOpen()) && inBrowser && constructorThrows ==>
        socket == old(socket) && created == old(created)
        && store.State() == old(store.State()).(connectionStatus :=
             ConnectionStatus(false, None, None, Some(CreateFailedMessage)))
      ensures !old(IsOpen()) && !inBrowser ==>
        socket == old(socket) && created == old(created) && store.State() == old(store.State())
    {
      reconnectPending := false;
      if IsOpen() {
        return;
      }
      if !inBrowser {
        return;
      }
      if constructorThrows {
        store.SetConnectionStatus(ConnectionStatus(false, None, None, Some(CreateFailedMessage)));
        return;
      }
      created := created + 1;
      socket := Some(Socket(created, Connecting));
    }

    /** `onopen` of the current socket. */
    method OnOpen()
      modifies this, store
      ensures socket == (if old(socket).Some? && old(socket).value.readyState == Connecting
                         then Some(old(socket).value.(readyState := Open)) else old(socket))
      ensures store.State() == old(store.State()).(connectionStatus := Status(true))
      ensures reconnectPending == old(reconnectPending) && outbox == old(outbox) && created == old(created)
    {
      if socket.Some? && socket.value.readyState == Connecting {
        socket := Some(socket.value.(readyState := Open));
      }
      store.SetConnectionStatus(Status(true));
    }

    /** `onclose` with the event's close code; `scheduled` is the delay of
        the reconnect timer it starts, if it starts one. */
    method OnClose(code: int) returns (scheduled: Option<nat>)
      modifies this, store
      ensures socket == (if old(socket).Some? then Some(old(socket).value.(readyState := Closed)) else None)
      ensures store.State() == old(store.State()).(connectionStatus := Status(false))
      ensures scheduled == (if code != NormalClosure then Some(ReconnectDelayMs) else None)
      ensures reconnectPending == (old(reconnectPending) || code != NormalClosure)
      ensures outbox == old(outbox) && created == old(created)
    {
      if socket.Some? {
        socket := Some(socket.value.(readyState := Closed));
      }
      store.SetConnectionStatus(Status(false));
      scheduled := None;
      if code != NormalClosure {
        reconnectPending := true;
        scheduled := Some(ReconnectDelayMs);
      }
    }

    /** `onerror`. */
    method OnError()
      modifies store
      ensures store.State() == old(store.State()).(connectionStatus :=
                ConnectionStatus(false, None, None, Some(ConnectionFailedMessage)))
    {
      store.SetConnectionStatus(ConnectionStatus(false, None, None, Some(ConnectionFailedMessage)));
    }

    /** `onmessage`. */
    method OnMessage(m: Inbound)
      modifies store
      ensures Dispatch(m).Ignore? ==> store.State() == old(store.State())
      ensures Dispatch(m).SetStatus? ==>
        store.State() == old(store.State()).(connectionStatus := Dispatch(m).status)
      ensures Dispatch(m).SetResult? ==>
        store.State() == WithResult(old(store.State()), Dispatch(m).result)
    {
      match Dispatch(m)
      case SetStatus(status) => store.SetConnectionStatus(status);
      case SetResult(r) => store.SetLatestResult(r);
      case Ignore =>
    }

    /** The reconnect timer firing: `connect()` again. */
    method ReconnectTimerFires(inBrowser: bool, constructorThrows: bool)
      requires reconnectPending
      modifies this, store
      ensures !reconnectPending && outbox == old(outbox)
      ensures old(IsOpen()) ==>
        socket == old(socket) && created == old(created) && store.State() == old(store.State())
      ensures !old(IsOpen()) && inBrowser && !constructorThrows ==>
        created == old(created) + 1 && socket == Some(Socket(created, Connecting))
        && store.State() == old(store.State())
      ensures !old(IsOpen()) && inBrowser && constructorThrows ==>
        socket == old(socket) && created == old(created)
        && store.State() == old(store.State()).(connectionStatus :=
             ConnectionStatus(false, None, None, Some(CreateFailedMessage)))
      ensures !old(IsOpen()) && !inBrowser ==>
        socket == old(socket) && created == old(created) && store.State() == old(store.State())
    {
      Connect(inBrowser, constructorThrows);
    }

    /** `disconnect()`: cancel the timer; close, drop and report a socket if
        there is one. The socket's own close event, with code 1000, follows
        later as `OnClose(NormalClosure)`. */
    method Disconnect()
      modifies this, store
      ensures !reconnectPending && socket.None?
      ensures old(socket).Some? ==>
        store.State() == old(store.State()).(connectionStatus := Status(false))
      ensures old(socket).None? ==> store.State() == old(store.State())
      ensures outbox == old(outbox) && created == old(created)
    {
      reconnectPending := false;
      if socket.Some? {
        socket := None;
        store.SetConnectionStatus(Status(false));
      }
    }

    /** `sendFrame(frameData)`. `sendThrows` is whether `WebSocket.send`
        throws; `now` is `Date.now()`. */
    method SendFrame(frameData: string, now: int, sendThrows: bool) returns (ok: bool)
      modifies this`outbox
      ensures ok <==> old(IsOpen()) && !sendThrows
      ensures ok ==> outbox == old(outbox) + [FrameEnvelope(frameData, now, store.settings)]
      ensures !ok ==> outbox == old(outbox)
    {
      if !IsOpen() {
        return false;
      }
      if sendThrows {
        return false;
      }
      outbox := outbox + [FrameEnvelope(frameData, now, store.settings)];
      return true;
    }
  }

  /** A manual disconnect of an open socket, whose close event then carries
      the 1000 that `disconnect` sent, is not followed by a reconnect. */
  method ManualDisconnectDoesNotReconnect(m: ConnectionManager)
    requires m.IsOpen()
    modifies m, m.store
    ensures !m.reconnectPending && m.socket.None?
    ensures !m.store.connectionStatus.connected
  {
    m.Disconnect();
    var scheduled := m.OnClose(NormalClosure);
    assert scheduled.None?;
  }

  /** A manual disconnect while the socket is still CONNECTING: the
      connection fails, its close event carries 1006, and the handler,
      still attached to the dropped socket, schedules a reconnect after all. */
  method DisconnectWhileConnectingReconnects(m: ConnectionManager)
    requires m.socket.Some? && m.socket.value.readyState == Connecting
    modifies m, m.store
    ensures m.reconnectPending && m.socket.None?
    ensures !m.store.connectionStatus.connected
  {
    m.Disconnect();
    var scheduled := m.OnClose(AbnormalClosure);
    assert scheduled == Some(ReconnectDelayMs);
  }

  /** Any other close code leaves a reconnect pending, however many closes
      came before: there is no attempt limit. */
  method UnexpectedCloseReconnects(m: ConnectionManager, code: int)
    requires code != NormalClosure
    modifies m, m.store
    ensures m.reconnectPending && !m.store.connectionStatus.connected
  {
    var scheduled := m.OnClose(code);
    assert scheduled == Some(ReconnectDelayMs);
  }

  /** The happy path: connect, open, the server's `connected` message, one
      frame sent, one result of two faces and no bodies received. */
  method HappyPath(m: ConnectionManager, clientId: string, serverTime: string,
                   frame: string, now: int, r: DetectionResult)
    requires |r.faces| == 2 && r.bodies == []
    requires m.store.statistics.framesProcessed == 0 && m.outbox == []
    modifies m, m.store
    ensures m.IsOpen()
    ensures m.store.connectionStatus == ConnectionStatus(true, Some(clientId), Some(serverTime), None)
    ensures m.outbox == [FrameEnvelope(frame, now, m.store.settings)]
    ensures m.store.latestResult == Some(r) && |m.store.latestResult.value.faces| == 2
    ensures m.store.statistics.framesProcessed == 1
  {
    m.Disconnect();
    m.Connect(true, false);
    m.OnOpen();
    m.OnMessage(Message("connected", Some(Payload(Some(clientId), Some(serverTime), None, None))));
    var ok := m.SendFrame(frame, now, false);
    assert ok;
    m.OnMessage(Message("detection_result", Some(Payload(None, None, None, Some(r)))));
  }
}
