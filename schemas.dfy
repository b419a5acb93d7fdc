/** The records the services exchange (app/models/schemas.py). Floats are
    reals, datetimes are opaque integer instants, a Python dict of metrics is
    a sequence of (name, value) pairs in insertion order. */
module Schemas {
  import opened PyBuiltins

  datatype SessionStatus = Pending | Processing | Completed | Failed

  datatype Severity = Low | Medium | High

  /** The string value of the enum (`Severity.value`). */
  function SeverityValue(s: Severity): string
  {
    match s
    case Low => "low"
    case Medium => "medium"
    case High => "high"
  }

  /** Metrics of one analysed frame; `metrics` keeps dict order. */
  datatype FrameMetrics = FrameMetrics(
    frameNumber: int,
    timestampSec: real,
    landmarksDetected: bool,
    avgVisibility: real,
    metrics: seq<(string, real)>)

  /** A Python dict never holds one key twice. */
  predicate UniqueKeys<V>(entries: seq<(string, V)>)
  {
    forall i, j :: 0 <= i < j < |entries| ==> entries[i].0 != entries[j].0
  }

  /** One metric's deviation on one frame, before aggregation. */
  datatype FrameError = FrameError(
    metric: string,
    measuredValue: real,
    idealMin: real,
    idealMax: real,
    deviation: real,
    frameNumber: int,
    timestampSec: real,
    severity: Severity)

  /** One metric's deviations collapsed across the session into one finding. */
  datatype AggregatedError = AggregatedError(
    metric: string,
    severity: Severity,
    avgMeasuredValue: real,
    idealMin: real,
    idealMax: real,
    avgDeviation: real,
    maxDeviation: real,
    frameCount: int,
    totalFramesAnalyzed: int,
    frequencyPct: real,
    firstTimestampSec: real,
    lastTimestampSec: real,
    durationSec: real,
    worstFrameNumber: int,
    worstTimestampSec: real,
    worstMeasuredValue: real,
    clipPath: Option<string>,
    thumbnailPath: Option<string>)

  datatype SessionResponse = SessionResponse(
    sessionId: string,
    status: SessionStatus,
    createdAt: int,
    videoFilename: string,
    surferName: Option<string>,
    skillLevel: Option<string>)

  datatype SessionReport = SessionReport(
    sessionId: string,
    status: SessionStatus,
    totalFrames: int,
    analyzedFrames: int,
    skippedFrames: int,
    videoDurationSec: real,
    videoFps: real,
    aggregatedErrors: seq<AggregatedError>,
    coachingFeedback: string,
    createdAt: int,
    processingTimeSec: real)

  datatype ChatMessage = ChatMessage(role: string, content: string, timestamp: int)
}
