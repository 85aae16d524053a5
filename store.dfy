/** The shared detection store (src/store/detection.ts): one mutable record
    of connection status, latest result, settings, statistics and UI flags,
    changed only through its setters. */
module Store {
  import opened Types

  /** The data fields of the store, as one value. */
  datatype StoreState = StoreState(
    connectionStatus: ConnectionStatus,
    latestResult: Option<DetectionResult>,
    settings: Settings,
    statistics: Statistics,
    isProcessing: bool,
    showAlerts: bool,
    isVideoActive: bool,
    videoError: Option<string>,
    targetFps: real)

  /** A `Partial<DetectionSettings>`: `None` is a key that is absent. */
  datatype SettingsPatch = SettingsPatch(
    faceConfidenceThreshold: Option<real>,
    bodyConfidenceThreshold: Option<real>,
    crowdThreshold: Option<int>)

  /** A `Partial<Statistics>`. */
  datatype StatisticsPatch = StatisticsPatch(
    framesProcessed: Option<int>,
    averageFps: Option<real>,
    processingLatency: Option<real>,
    connectionDuration: Option<real>)

  function Pick<T>(patch: Option<T>, current: T): T
  {
    if patch.Some? then patch.value else current
  }

  /** `{ ...settings, ...patch }`: the keys present in the patch win. */
  function MergeSettings(s: Settings, p: SettingsPatch): (r: Settings)
    ensures p.faceConfidenceThreshold.None? ==> r.faceConfidenceThreshold == s.faceConfidenceThreshold
    ensures p.faceConfidenceThreshold.Some? ==> r.faceConfidenceThreshold == p.faceConfidenceThreshold.value
    ensures p.bodyConfidenceThreshold.None? ==> r.bodyConfidenceThreshold == s.bodyConfidenceThreshold
    ensures p.bodyConfidenceThreshold.Some? ==> r.bodyConfidenceThreshold == p.bodyConfidenceThreshold.value
    ensures p.crowdThreshold.None? ==> r.crowdThreshold == s.crowdThreshold
    ensures p.crowdThreshold.Some? ==> r.crowdThreshold == p.crowdThreshold.value
  {
    Settings(
      Pick(p.faceConfidenceThreshold, s.faceConfidenceThreshold),
      Pick(p.bodyConfidenceThreshold, s.bodyConfidenceThreshold),
      Pick(p.crowdThreshold, s.crowdThreshold))
  }

  /** Later keys win: merging `p` and then `q` is merging `q` laid over `p`. */
  function LaySettings(p: SettingsPatch, q: SettingsPatch): SettingsPatch
  {
    SettingsPatch(
      if q.faceConfidenceThreshold.Some? then q.faceConfidenceThreshold else p.faceConfidenceThreshold,
      if q.bodyConfidenceThreshold.Some? then q.bodyConfidenceThreshold else p.bodyConfidenceThreshold,
      if q.crowdThreshold.Some? then q.crowdThreshold else p.crowdThreshold)
  }

  lemma MergeSettingsLaws(s: Settings, p: SettingsPatch, q: SettingsPatch)
    ensures MergeSettings(s, SettingsPatch(None, None, None)) == s
    ensures MergeSettings(MergeSettings(s, p), p) == MergeSettings(s, p)
    ensures MergeSettings(MergeSettings(s, p), q) == MergeSettings(s, LaySettings(p, q))
  {
  }

  /** `{ ...statistics, ...patch }`. */
  function MergeStatistics(s: Statistics, p: StatisticsPatch): (r: Statistics)
    ensures p.framesProcessed.None? ==> r.framesProcessed == s.framesProcessed
    ensures p.framesProcessed.Some? ==> r.framesProcessed == p.framesProcessed.value
    ensures p.averageFps.None? ==> r.averageFps == s.averageFps
    ensures p.averageFps.Some? ==> r.averageFps == p.averageFps.value
    ensures p.processingLatency.None? ==> r.processingLatency == s.processingLatency
    ensures p.processingLatency.Some? ==> r.processingLatency == p.processingLatency.value
    ensures p.connectionDuration.None? ==> r.connectionDuration == s.connectionDuration
    ensures p.connectionDuration.Some? ==> r.connectionDuration == p.connectionDuration.value
  {
    Statistics(
      Pick(p.framesProcessed, s.framesProcessed),
      Pick(p.averageFps, s.averageFps),
      Pick(p.processingLatency, s.processingLatency),
      Pick(p.connectionDuration, s.connectionDuration))
  }

  lemma MergeStatisticsLaws(s: Statistics, p: StatisticsPatch)
    ensures MergeStatistics(s, StatisticsPatch(None, None, None, None)) == s
    ensures MergeStatistics(MergeStatistics(s, p), p) == MergeStatistics(s, p)
  {
  }

  /** The effect of `setLatestResult(r)` on the store's data. */
  function WithResult(s: StoreState, r: DetectionResult): (t: StoreState)
    ensures t.latestResult == Some(r)
    ensures t.statistics.framesProcessed == s.statistics.framesProcessed + 1
    ensures t.statistics.processingLatency == r.processingTime
    ensures t.statistics.averageFps == s.statistics.averageFps
    ensures t.statistics.connectionDuration == s.statistics.connectionDuration
    ensures t.(latestResult := s.latestResult, statistics := s.statistics) == s
  {
    var afterFirstSet := s.(latestResult := Some(r));
    var current := afterFirstSet.statistics;
    afterFirstSet.(statistics := current.(
      framesProcessed := current.framesProcessed + 1,
      processingLatency := r.processingTime))
  }

  /** Storing the same result twice keeps the result and counts two frames. */
  lemma WithResultTwice(s: StoreState, r: DetectionResult)
    ensures WithResult(WithResult(s, r), r).latestResult == WithResult(s, r).latestResult
    ensures WithResult(WithResult(s, r), r).statistics.framesProcessed == s.statistics.framesProcessed + 2
    ensures WithResult(WithResult(s, r), r).statistics.processingLatency == WithResult(s, r).statistics.processingLatency
  {
  }

  /** Each call of `setLatestResult` counts exactly one frame, whatever the results. */
  function ApplyResults(s: StoreState, rs: seq<DetectionResult>): StoreState
    decreases |rs|
  {
    if rs == [] then s else ApplyResults(WithResult(s, rs[0]), rs[1..])
  }

  lemma {:induction false} ApplyResultsCounts(s: StoreState, rs: seq<DetectionResult>)
    ensures ApplyResults(s, rs).statistics.framesProcessed == s.statistics.framesProcessed + |rs|
    ensures rs != [] ==> ApplyResults(s, rs).latestResult == Some(rs[|rs| - 1])
    ensures rs != [] ==> ApplyResults(s, rs).statistics.processingLatency == rs[|rs| - 1].processingTime
    ensures ApplyResults(s, rs).settings == s.settings
    ensures ApplyResults(s, rs).connectionStatus == s.connectionStatus
    decreases |rs|
  {
    if rs != [] {
      ApplyResultsCounts(WithResult(s, rs[0]), rs[1..]);
      if |rs| > 1 {
        assert rs[1..][|rs[1..]| - 1] == rs[|rs| - 1];
      }
    }
  }

  /** `crowd_threshold` is read from the environment when the module loads
      (10 when unset); the model takes the parsed value as a parameter. */
  function InitialState(crowdThreshold: int): (s: StoreState)
    ensures s.connectionStatus == Status(false)
    ensures s.latestResult.None? && s.videoError.None?
    ensures s.settings.faceConfidenceThreshold == 0.3 && s.settings.bodyConfidenceThreshold == 0.5
    ensures s.settings.crowdThreshold == crowdThreshold
    ensures s.statistics == Statistics(0, 0.0, 0.0, 0.0)
    ensures !s.isProcessing && s.showAlerts && !s.isVideoActive && s.targetFps == 5.0
  {
    StoreState(
      connectionStatus := Status(false),
      latestResult := None,
      settings := Settings(0.3, 0.5, crowdThreshold),
      statistics := Statistics(0, 0.0, 0.0, 0.0),
      isProcessing := false,
      showAlerts := true,
      isVideoActive := false,
      videoError := None,
      targetFps := 5.0)
  }

  class DetectionStore {
    var connectionStatus: ConnectionStatus
    var latestResult: Option<DetectionResult>
    var settings: Settings
    var statistics: Statistics
    var isProcessing: bool
    var showAlerts: bool
    var isVideoActive: bool
    var videoError: Option<string>
    var targetFps: real
    /** The parsed `NEXT_PUBLIC_CROWD_THRESHOLD`, fixed when the store is created. */
    const defaultCrowdThreshold: int

    function State(): StoreState
      reads this
    {
      StoreState(connectionStatus, latestResult, settings, statistics,
                 isProcessing, showAlerts, isVideoActive, videoError, targetFps)
    }

    constructor (crowdThreshold: int)
      ensures State() == InitialState(crowdThreshold)
      ensures defaultCrowdThreshold == crowdThreshold
    {
      var s := InitialState(crowdThreshold);
      defaultCrowdThreshold := crowdThreshold;
      connectionStatus, latestResult, settings, statistics := s.connectionStatus, s.latestResult, s.settings, s.statistics;
      isProcessing, showAlerts, isVideoActive, videoError, targetFps := s.isProcessing, s.showAlerts, s.isVideoActive, s.videoError, s.targetFps;
    }

    /** Replaces the whole status record; nothing of the old one survives. */
    method SetConnectionStatus(status: ConnectionStatus)
      modifies this
      ensures State() == old(State()).(connectionStatus := status)
    {
      connectionStatus := status;
    }

    method SetLatestResult(r: DetectionResult)
      modifies this
      ensures State() == WithResult(old(State()), r)
    {
      latestResult := Some(r);
      var current := statistics;
      statistics := current.(
        framesProcessed := current.framesProcessed + 1,
        processingLatency := r.processingTime);
    }

    method UpdateSettings(p: SettingsPatch)
      modifies this
      ensures State() == old(State()).(settings := MergeSettings(old(settings), p))
    {
      settings := MergeSettings(settings, p);
    }

    method UpdateStatistics(p: StatisticsPatch)
      modifies this
      ensures State() == old(State()).(statistics := MergeStatistics(old(statistics), p))
    {
      statistics := MergeStatistics(statistics, p);
    }

    method SetIsProcessing(processing: bool)
      modifies this
      ensures State() == old(State()).(isProcessing := processing)
    {
      isProcessing := processing;
    }

    method SetShowAlerts(show: bool)
      modifies this
      ensures State() == old(State()).(showAlerts := show)
    {
      showAlerts := show;
    }

    method SetIsVideoActive(active: bool)
      modifies this
      ensures State() == old(State()).(isVideoActive := active)
    {
      isVideoActive := active;
    }

    method SetVideoError(error: Option<string>)
      modifies this
      ensures State() == old(State()).(videoError := error)
    {
      videoError := error;
    }

    method SetTargetFps(fps: real)
      modifies this
      ensures State() == old(State()).(targetFps := fps)
    {
      targetFps := fps;
    }

    /** Back to the initial record, whatever came before. */
    method Reset()
      modifies this
      ensures State() == InitialState(defaultCrowdThreshold)
    {
      var s := InitialState(defaultCrowdThreshold);
      connectionStatus, latestResult, settings, statistics := s.connectionStatus, s.latestResult, s.settings, s.statistics;
      isProcessing, showAlerts, isVideoActive, videoError, targetFps := s.isProcessing, s.showAlerts, s.isVideoActive, s.videoError, s.targetFps;
    }
  }
}
