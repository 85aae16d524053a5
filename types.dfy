/** The value types shared by the dashboard: detections and results as the
    backend sends them, alerts, and the records kept in the shared store. */
module Types {

  datatype Option<+T> = None | Some(value: T)

  /** One coordinate as it arrives in JSON: a number, or anything for which
      JavaScript's `isNaN` holds (NaN, undefined, a non-numeric string). */
  datatype Coord = Num(v: real) | NotANumber

  /** The `bbox` of a detection in whichever shape the backend produced it:
      an array, an object with `x1`, `y1`, `x2`, `y2` fields, or neither
      (null, a number, a string). */
  datatype RawBox =
    | ArrayBox(coords: seq<Coord>)
    | ObjectBox(x1: Coord, y1: Coord, x2: Coord, y2: Coord)
    | OtherShape

  datatype Detection = Detection(
    bbox: RawBox,
    confidence: real,
    kind: string,              // the `type` field: "face" or "body"
    classId: Option<int>,
    className: Option<string>)

  datatype Alert = Alert(
    kind: string,              // the `type` field
    level: string,             // "info", "warning", "error" or "critical"
    message: string,
    crowdLevel: Option<string>,
    timestamp: int)

  datatype CrowdAnalysis = CrowdAnalysis(
    faceCount: int,
    bodyCount: int,
    totalPeople: int,
    crowdLevel: string,
    densityScore: real,
    color: string,
    shouldAlert: bool)

  datatype FrameInfo = FrameInfo(width: int, height: int, channels: int)

  datatype DetectionResult = DetectionResult(
    faces: seq<Detection>,
    bodies: seq<Detection>,
    crowdAnalysis: CrowdAnalysis,
    alerts: seq<Alert>,
    processingTime: real,
    timestamp: real,
    frameInfo: FrameInfo)

  datatype ConnectionStatus = ConnectionStatus(
    connected: bool,
    clientId: Option<string>,
    serverTime: Option<string>,
    error: Option<string>)

  /** A status record carrying only the `connected` flag. */
  function Status(connected: bool): (s: ConnectionStatus)
    ensures s.connected == connected
    ensures s.clientId.None? && s.serverTime.None? && s.error.None?
  {
    ConnectionStatus(connected, None, None, None)
  }

  /** A session id is only ever shown together with `connected: true`. */
  predicate SessionConsistent(s: ConnectionStatus)
  {
    s.clientId.Some? ==> s.connected
  }

  datatype Settings = Settings(
    faceConfidenceThreshold: real,
    bodyConfidenceThreshold: real,
    crowdThreshold: int)

  datatype Statistics = Statistics(
    framesProcessed: int,
    averageFps: real,
    processingLatency: real,
    connectionDuration: real)

  /** A thrown or rejected value as a `catch` sees it: an `Error` (a
      `DOMException` is one) with its `name` and `message`, or some other
      value. */
  datatype Thrown = ErrorValue(name: string, message: string) | NonError
}
