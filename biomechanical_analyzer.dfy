/** Per-frame deviation classifier (app/services/biomechanical_analyzer.py):
    each metric of a frame that has an ideal range is checked against the
    closed interval [min, max]; a value outside it becomes a FrameError whose
    severity grades the distance to the violated bound. */
module BiomechanicalAnalysis {
  import opened PyBuiltins
  import opened Schemas

  /** `severity_thresholds`: either key may be missing. */
  datatype Thresholds = Thresholds(medium: Option<real>, high: Option<real>)

  /** One entry of the ideal-range table; `severity_thresholds` may be missing. */
  datatype IdealRange = IdealRange(min: real, max: real, severityThresholds: Option<Thresholds>)

  type IdealRanges = map<string, IdealRange>

  const DEFAULT_HIGH_THRESHOLD: real := 30.0
  const DEFAULT_MEDIUM_THRESHOLD: real := 15.0

  function HighThreshold(t: Thresholds): real
  {
    match t.high
    case Some(h) => h
    case None => DEFAULT_HIGH_THRESHOLD
  }

  function MediumThreshold(t: Thresholds): real
  {
    match t.medium
    case Some(m) => m
    case None => DEFAULT_MEDIUM_THRESHOLD
  }

  /** `ideal.get("severity_thresholds", {})` */
  function ThresholdsOf(r: IdealRange): Thresholds
  {
    match r.severityThresholds
    case Some(t) => t
    case None => Thresholds(None, None)
  }

  /** `_classify_severity` */
  function ClassifySeverity(deviation: real, t: Thresholds): Severity
  {
    if deviation >= HighThreshold(t) then High
    else if deviation >= MediumThreshold(t) then Medium
    else Low
  }

  function Rank(s: Severity): nat
  {
    match s
    case Low => 0
    case Medium => 1
    case High => 2
  }

  /** With medium <= high, a larger deviation never gets a lower tier. */
  lemma SeverityMonotone(d1: real, d2: real, t: Thresholds)
    requires MediumThreshold(t) <= HighThreshold(t)
    requires d1 <= d2
    ensures Rank(ClassifySeverity(d1, t)) <= Rank(ClassifySeverity(d2, t))
  {
  }

  /** The grading with the default thresholds 15 and 30: 5 past the bound
      is LOW, 20 past is MEDIUM, 40 past is HIGH, and the thresholds
      themselves already reach the higher tier. */
  lemma DefaultGrading()
    ensures ClassifySeverity(5.0, Thresholds(None, None)) == Low
    ensures ClassifySeverity(15.0, Thresholds(None, None)) == Medium
    ensures ClassifySeverity(20.0, Thresholds(None, None)) == Medium
    ensures ClassifySeverity(30.0, Thresholds(None, None)) == High
    ensures ClassifySeverity(40.0, Thresholds(None, None)) == High
  {
  }

  /** Distance from `value` to the bound it violates; None inside [min, max]. */
  function Deviation(value: real, r: IdealRange): (d: Option<real>)
    ensures d.None? <==> r.min <= value <= r.max
    ensures d.Some? ==> d.value > 0.0
    ensures value < r.min ==> d == Some(r.min - value)
    ensures r.min <= value && r.max < value ==> d == Some(value - r.max)
  {
    if value < r.min then Some(r.min - value)
    else if value > r.max then Some(value - r.max)
    else None
  }

  /** The error one (metric, value) entry of a frame produces, if any. */
  function EntryError(ranges: IdealRanges, fm: FrameMetrics, entry: (string, real)): (e: Option<FrameError>)
    ensures e.None? <==> entry.0 !in ranges || ranges[entry.0].min <= entry.1 <= ranges[entry.0].max
    ensures e.Some? ==>
      var r := ranges[entry.0];
      && e.value.metric == entry.0
      && e.value.measuredValue == entry.1
      && e.value.idealMin == r.min && e.value.idealMax == r.max
      && e.value.deviation > 0.0
      && (entry.1 < r.min ==> e.value.deviation == r.min - entry.1)
      && (r.min <= entry.1 && entry.1 > r.max ==> e.value.deviation == entry.1 - r.max)
      && e.value.frameNumber == fm.frameNumber
      && e.value.timestampSec == fm.timestampSec
      && e.value.severity == ClassifySeverity(e.value.deviation, ThresholdsOf(r))
  {
    var (name, value) := entry;
    if name !in ranges then None
    else
      var r := ranges[name];
      match Deviation(value, r)
      case None => None
      case Some(d) =>
        Some(FrameError(name, value, r.min, r.max, d, fm.frameNumber, fm.timestampSec,
                        ClassifySeverity(d, ThresholdsOf(r))))
  }

  function AsSeq<T>(o: Option<T>): seq<T>
  {
    match o
    case None => []
    case Some(x) => [x]
  }

  /** The errors of the first entries of the frame, in entry order. */
  function ErrorsOf(ranges: IdealRanges, fm: FrameMetrics, entries: seq<(string, real)>): seq<FrameError>
  {
    if entries == [] then []
    else ErrorsOf(ranges, fm, entries[..|entries| - 1]) + AsSeq(EntryError(ranges, fm, entries[|entries| - 1]))
  }

  function FrameErrors(ranges: IdealRanges, fm: FrameMetrics): seq<FrameError>
  {
    ErrorsOf(ranges, fm, fm.metrics)
  }

  /** `analyze_frame`: loop over the frame's metrics, appending one error per
      metric that has a range and lies outside it. */
  method AnalyzeFrame(idealRanges: IdealRanges, frameMetrics: FrameMetrics) returns (errors: seq<FrameError>)
    ensures errors == FrameErrors(idealRanges, frameMetrics)
  {
    errors := [];
    var entries := frameMetrics.metrics;
    for i := 0 to |entries|
      invariant errors == ErrorsOf(idealRanges, frameMetrics, entries[..i])
    {
      assert entries[..i + 1][..i] == entries[..i];
      var (metricName, value) := entries[i];
      if metricName !in idealRanges {
        continue;
      }
      var ideal := idealRanges[metricName];
      var idealMin, idealMax := ideal.min, ideal.max;
      var deviation: real;
      if value < idealMin {
        deviation := idealMin - value;
      } else if value > idealMax {
        deviation := value - idealMax;
      } else {
        continue;
      }
      var severity := ClassifySeverity(deviation, ThresholdsOf(ideal));
      errors := errors + [FrameError(metricName, value, idealMin, idealMax, deviation,
                                     frameMetrics.frameNumber, frameMetrics.timestampSec, severity)];
    }
    assert entries[..|entries|] == entries;
  }

  /** An error is reported exactly for the entries that have a range and lie
      outside it: every error comes from one entry, and every violating entry
      yields its error. */
  lemma {:induction false} ErrorsOfMembership(ranges: IdealRanges, fm: FrameMetrics, entries: seq<(string, real)>, e: FrameError)
    ensures e in ErrorsOf(ranges, fm, entries) <==>
            exists i :: 0 <= i < |entries| && EntryError(ranges, fm, entries[i]) == Some(e)
    decreases |entries|
  {
    if entries != [] {
      var init := entries[..|entries| - 1];
      ErrorsOfMembership(ranges, fm, init, e);
      if e in ErrorsOf(ranges, fm, init) {
        var i :| 0 <= i < |init| && EntryError(ranges, fm, init[i]) == Some(e);
        assert entries[i] == init[i];
      }
      if exists i :: 0 <= i < |entries| && EntryError(ranges, fm, entries[i]) == Some(e) {
        var i :| 0 <= i < |entries| && EntryError(ranges, fm, entries[i]) == Some(e);
        if i < |init| {
          assert init[i] == entries[i];
        }
      }
    }
  }

  /** Every error of the frame names a metric of the frame, in order. */
  lemma {:induction false} ErrorsOfNames(ranges: IdealRanges, fm: FrameMetrics, entries: seq<(string, real)>, k: nat)
    requires k < |ErrorsOf(ranges, fm, entries)|
    ensures exists i :: 0 <= i < |entries| && entries[i].0 == ErrorsOf(ranges, fm, entries)[k].metric
    decreases |entries|
  {
    var init := entries[..|entries| - 1];
    if k < |ErrorsOf(ranges, fm, init)| {
      ErrorsOfNames(ranges, fm, init, k);
      var i :| 0 <= i < |init| && init[i].0 == ErrorsOf(ranges, fm, init)[k].metric;
      assert entries[i] == init[i];
    } else {
      assert ErrorsOf(ranges, fm, entries)[k].metric == entries[|entries| - 1].0;
    }
  }

  predicate NoRepeatedMetric(errs: seq<FrameError>)
  {
    forall i, j :: 0 <= i < j < |errs| ==> errs[i].metric != errs[j].metric
  }

  /** Since a dict holds each metric once, a frame yields at most one error
      per metric. */
  lemma {:induction false} AtMostOneErrorPerMetric(ranges: IdealRanges, fm: FrameMetrics, entries: seq<(string, real)>)
    requires UniqueKeys(entries)
    ensures NoRepeatedMetric(ErrorsOf(ranges, fm, entries))
    decreases |entries|
  {
    if entries != [] {
      var init, last := entries[..|entries| - 1], entries[|entries| - 1];
      assert UniqueKeys(init) by {
        forall i, j | 0 <= i < j < |init| ensures init[i].0 != init[j].0 {
          assert init[i] == entries[i] && init[j] == entries[j];
        }
      }
      AtMostOneErrorPerMetric(ranges, fm, init);
      var pre := ErrorsOf(ranges, fm, init);
      var errs := ErrorsOf(ranges, fm, entries);
      var tail := AsSeq(EntryError(ranges, fm, last));
      assert errs == pre + tail;
      forall i, j | 0 <= i < j < |errs| ensures errs[i].metric != errs[j].metric {
        assert i < |pre|;
        assert errs[i] == pre[i];
        if j < |pre| {
          assert errs[j] == pre[j];
          assert pre[i].metric != pre[j].metric;
        } else {
          assert errs[j] == tail[0] == EntryError(ranges, fm, last).value;
          ErrorsOfNames(ranges, fm, init, i);
          var k :| 0 <= k < |init| && init[k].0 == pre[i].metric;
          assert entries[k] == init[k];
          assert entries[k].0 != entries[|entries| - 1].0;
          assert errs[i].metric == entries[k].0;
          assert errs[j].metric == entries[|entries| - 1].0;
        }
      }
    }
  }
}
