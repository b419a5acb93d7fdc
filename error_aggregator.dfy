/** Session aggregator (app/services/error_aggregator.py): the frame errors
    of a whole session are grouped by metric, each group is summarised into
    one finding (counts, frequency, mean and maximum deviation, time span,
    worst frame, overall severity), and the findings are ranked by
    weight × frequency × average deviation. */
module ErrorAggregation {
  import opened PyBuiltins
  import opened Schemas
  import opened StableSort
  import opened Folds
  import opened Arithmetic
  import BiomechanicalAnalysis

  /** `SEVERITY_WEIGHT` */
  function SeverityWeight(s: Severity): real
  {
    match s
    case Low => 1.0
    case Medium => 2.0
    case High => 3.0
  }

  /** The ranking key of a finding. */
  function Priority(a: AggregatedError): real
  {
    SeverityWeight(a.severity) * a.frequencyPct * a.avgDeviation
  }

  /** Sort key of the final `sort(..., reverse=True)`. */
  function PriorityDescending(a: AggregatedError): real
  {
    -Priority(a)
  }

  /** Sort key of `errors.sort(key=lambda e: e.frame_number)`. */
  function FrameOrder(e: FrameError): real
  {
    e.frameNumber as real
  }

  // ---------------------------------------------------------------------------
  // Grouping: `by_metric`, a defaultdict whose keys keep first-insertion order.
  // ---------------------------------------------------------------------------

  /** The keys of `by_metric`, in the order they were first inserted: each
      names at least one error, and none repeats. */
  function MetricsOf(errs: seq<FrameError>): (keys: seq<string>)
    ensures forall m :: m in keys ==> GroupOf(errs, m) != []
    ensures forall i, j :: 0 <= i < j < |keys| ==> keys[i] != keys[j]
  {
    if errs == [] then []
    else
      var keys := MetricsOf(errs[..|errs| - 1]);
      if errs[|errs| - 1].metric in keys then keys else keys + [errs[|errs| - 1].metric]
  }

  /** `by_metric[m]`: the errors of metric `m`, in input order. */
  function GroupOf(errs: seq<FrameError>, m: string): seq<FrameError>
  {
    if errs == [] then []
    else GroupOf(errs[..|errs| - 1], m) + (if errs[|errs| - 1].metric == m then [errs[|errs| - 1]] else [])
  }

  lemma {:induction false} GroupMembership(errs: seq<FrameError>, m: string, e: FrameError)
    ensures e in GroupOf(errs, m) <==> e in errs && e.metric == m
    decreases |errs|
  {
    if errs != [] {
      GroupMembership(errs[..|errs| - 1], m, e);
      assert errs == errs[..|errs| - 1] + [errs[|errs| - 1]];
    }
  }

  /** Every metric some error names is a key. */
  lemma {:induction false} MetricsOfComplete(errs: seq<FrameError>, m: string)
    requires GroupOf(errs, m) != []
    ensures m in MetricsOf(errs)
    decreases |errs|
  {
    var init := errs[..|errs| - 1];
    if GroupOf(init, m) != [] {
      MetricsOfComplete(init, m);
    }
  }

  // ---------------------------------------------------------------------------
  // Statistics of one group
  // ---------------------------------------------------------------------------

  function DeviationOf(e: FrameError): real { e.deviation }

  function MeasuredOf(e: FrameError): real { e.measuredValue }

  function HasSeverity(s: Severity): FrameError -> bool
  {
    (e: FrameError) => e.severity == s
  }

  /** `max(deviations)` */
  function MaxDeviation(g: seq<FrameError>): (m: real)
    requires g != []
    ensures forall k :: 0 <= k < |g| ==> g[k].deviation <= m
    ensures exists k :: 0 <= k < |g| && g[k].deviation == m
  {
    if |g| == 1 then g[0].deviation
    else
      var rest := MaxDeviation(g[1..]);
      assert forall k :: 1 <= k < |g| ==> g[k] == g[1..][k - 1];
      if g[0].deviation >= rest then g[0].deviation else rest
  }

  /** `min(timestamps)` */
  function MinTimestamp(g: seq<FrameError>): (t: real)
    requires g != []
    ensures forall k :: 0 <= k < |g| ==> t <= g[k].timestampSec
    ensures exists k :: 0 <= k < |g| && g[k].timestampSec == t
  {
    if |g| == 1 then g[0].timestampSec
    else
      var rest := MinTimestamp(g[1..]);
      assert forall k :: 1 <= k < |g| ==> g[k] == g[1..][k - 1];
      if g[0].timestampSec <= rest then g[0].timestampSec else rest
  }

  /** `max(timestamps)` */
  function MaxTimestamp(g: seq<FrameError>): (t: real)
    requires g != []
    ensures forall k :: 0 <= k < |g| ==> g[k].timestampSec <= t
    ensures exists k :: 0 <= k < |g| && g[k].timestampSec == t
  {
    if |g| == 1 then g[0].timestampSec
    else
      var rest := MaxTimestamp(g[1..]);
      assert forall k :: 1 <= k < |g| ==> g[k] == g[1..][k - 1];
      if g[0].timestampSec >= rest then g[0].timestampSec else rest
  }

  /** `deviations.index(v)`: the first position holding deviation `v`. */
  function FirstIndexOf(g: seq<FrameError>, v: real): (i: nat)
    requires exists k :: 0 <= k < |g| && g[k].deviation == v
    ensures i < |g| && g[i].deviation == v
    ensures forall k :: 0 <= k < i ==> g[k].deviation != v
  {
    if g[0].deviation == v then 0
    else
      assert forall k :: 1 <= k < |g| ==> g[k] == g[1..][k - 1];
      1 + FirstIndexOf(g[1..], v)
  }

  /** `severity_counts[s]` after counting the whole group. */
  function CountSeverity(g: seq<FrameError>, s: Severity): nat
  {
    CountBy(g, HasSeverity(s))
  }

  /** The scan over HIGH, MEDIUM, LOW: the first tier holding more than a
      quarter of the group. */
  function OverallSeverity(g: seq<FrameError>): Severity
  {
    if 4 * CountSeverity(g, High) > |g| then High
    else if 4 * CountSeverity(g, Medium) > |g| then Medium
    else Low
  }

  /** `errors[deviations.index(max_deviation)]`: the first error with the
      largest deviation. */
  function WorstOf(g: seq<FrameError>): FrameError
    requires g != []
  {
    g[FirstIndexOf(g, MaxDeviation(g))]
  }

  /** The finding built from one metric's errors sorted by frame number. */
  function Summarize(metric: string, errors: seq<FrameError>, total: int): AggregatedError
    requires errors != [] && total != 0
  {
    var n := |errors| as real;
    var maxDev := MaxDeviation(errors);
    var worst := WorstOf(errors);
    AggregatedError(
      metric := metric,
      severity := OverallSeverity(errors),
      avgMeasuredValue := SumBy(errors, MeasuredOf) / n,
      idealMin := errors[0].idealMin,
      idealMax := errors[0].idealMax,
      avgDeviation := SumBy(errors, DeviationOf) / n,
      maxDeviation := maxDev,
      frameCount := |errors|,
      totalFramesAnalyzed := total,
      frequencyPct := n / (total as real) * 100.0,
      firstTimestampSec := MinTimestamp(errors),
      lastTimestampSec := MaxTimestamp(errors),
      durationSec := MaxTimestamp(errors) - MinTimestamp(errors),
      worstFrameNumber := worst.frameNumber,
      worstTimestampSec := worst.timestampSec,
      worstMeasuredValue := worst.measuredValue,
      clipPath := None,
      thumbnailPath := None)
  }

  /** The findings of the given keys, in key order, before ranking. */
  function FindingsOf(errs: seq<FrameError>, total: int, keys: seq<string>): (fs: seq<AggregatedError>)
    requires total != 0
    requires forall m :: m in keys ==> GroupOf(errs, m) != []
    ensures |fs| == |keys|
  {
    if keys == [] then []
    else
      var m := keys[|keys| - 1];
      FindingsOf(errs, total, keys[..|keys| - 1]) + [Summarize(m, SortBy(GroupOf(errs, m), FrameOrder), total)]
  }

  /** What `aggregate` returns. */
  function Aggregated(errs: seq<FrameError>, total: int): seq<AggregatedError>
  {
    if errs == [] || total == 0 then []
    else SortBy(FindingsOf(errs, total, MetricsOf(errs)), PriorityDescending)
  }

  // ---------------------------------------------------------------------------
  // The method
  // ---------------------------------------------------------------------------

  function CountOr0(counts: map<Severity, int>, s: Severity): int
  {
    if s in counts then counts[s] else 0
  }

  /** The grouping loop of `aggregate`: `by_metric` and the order in which
      its keys were first inserted. */
  method GroupByMetric(frameErrors: seq<FrameError>) returns (byMetric: map<string, seq<FrameError>>, keys: seq<string>)
    ensures keys == MetricsOf(frameErrors)
    ensures forall m :: m in byMetric <==> m in keys
    ensures forall m :: m in byMetric ==> byMetric[m] == GroupOf(frameErrors, m)
  {
    byMetric := map[];
    keys := [];
    for i := 0 to |frameErrors|
      invariant keys == MetricsOf(frameErrors[..i])
      invariant forall m :: m in byMetric <==> m in keys
      invariant forall m :: m in byMetric ==> byMetric[m] == GroupOf(frameErrors[..i], m)
    {
      var err := frameErrors[i];
      assert frameErrors[..i + 1][..i] == frameErrors[..i];
      if err.metric !in keys && GroupOf(frameErrors[..i], err.metric) != [] {
        MetricsOfComplete(frameErrors[..i], err.metric);
      }
      var group := if err.metric in byMetric then byMetric[err.metric] else [];
      if err.metric !in byMetric {
        keys := keys + [err.metric];
      }
      byMetric := byMetric[err.metric := group + [err]];
    }
    assert frameErrors[..|frameErrors|] == frameErrors;
  }

  /** The per-metric loop of `aggregate`: one finding per key, in key order. */
  method SummarizeAll(frameErrors: seq<FrameError>, totalFramesAnalyzed: int,
                      byMetric: map<string, seq<FrameError>>, keys: seq<string>)
    returns (findings: seq<AggregatedError>)
    requires totalFramesAnalyzed != 0
    requires forall m :: m in keys ==> m in byMetric && byMetric[m] == GroupOf(frameErrors, m) != []
    ensures findings == FindingsOf(frameErrors, totalFramesAnalyzed, keys)
  {
    findings := [];
    for k := 0 to |keys|
      invariant findings == FindingsOf(frameErrors, totalFramesAnalyzed, keys[..k])
    {
      FindingsOfStep(frameErrors, totalFramesAnalyzed, keys, k);
      var metric := keys[k];
      var errors := SortBy(byMetric[metric], FrameOrder);
      var agg := SummarizeGroup(metric, errors, totalFramesAnalyzed);
      findings := findings + [agg];
    }
    assert keys[..|keys|] == keys;
  }

  lemma FindingsOfStep(errs: seq<FrameError>, total: int, keys: seq<string>, k: nat)
    requires total != 0 && k < |keys|
    requires forall m :: m in keys ==> GroupOf(errs, m) != []
    ensures FindingsOf(errs, total, keys[..k + 1]) ==
      FindingsOf(errs, total, keys[..k]) + [Summarize(keys[k], SortBy(GroupOf(errs, keys[k]), FrameOrder), total)]
  {
    assert keys[..k + 1][..k] == keys[..k];
  }

  /** `ErrorAggregator(total_frames_analyzed).aggregate(frame_errors)` */
  method Aggregate(frameErrors: seq<FrameError>, totalFramesAnalyzed: int) returns (aggregated: seq<AggregatedError>)
    ensures aggregated == Aggregated(frameErrors, totalFramesAnalyzed)
  {
    if frameErrors == [] || totalFramesAnalyzed == 0 {
      return [];
    }
    var byMetric, keys := GroupByMetric(frameErrors);
    aggregated := SummarizeAll(frameErrors, totalFramesAnalyzed, byMetric, keys);
    aggregated := SortBy(aggregated, PriorityDescending);
  }

  /** `severity_counts`: the errors of the group tallied by severity. */
  method CountSeverities(errors: seq<FrameError>) returns (severityCounts: map<Severity, int>)
    ensures forall s :: CountOr0(severityCounts, s) == CountSeverity(errors, s)
  {
    severityCounts := map[];
    for j := 0 to |errors|
      invariant forall s :: CountOr0(severityCounts, s) == CountSeverity(errors[..j], s)
    {
      assert errors[..j + 1] == errors[..j] + [errors[j]];
      var sev := errors[j].severity;
      var updated := severityCounts[sev := CountOr0(severityCounts, sev) + 1];
      forall s
        ensures CountOr0(updated, s) == CountSeverity(errors[..j + 1], s)
      {
        CountByAppend(errors[..j], [errors[j]], HasSeverity(s));
        assert [errors[j]][1..] == [];
        assert CountOr0(severityCounts, s) == CountSeverity(errors[..j], s);
        assert CountBy([errors[j]], HasSeverity(s)) == if sev == s then 1 else 0;
      }
      severityCounts := updated;
    }
    assert errors[..|errors|] == errors;
  }

  /** The scan over HIGH, MEDIUM, LOW: the first tier whose share of the
      group exceeds 0.25, LOW when none does. */
  method ScanTiers(errors: seq<FrameError>, severityCounts: map<Severity, int>) returns (overallSeverity: Severity)
    requires errors != []
    requires forall s :: CountOr0(severityCounts, s) == CountSeverity(errors, s)
    ensures overallSeverity == OverallSeverity(errors)
  {
    var n := |errors|;
    overallSeverity := Low;
    var tiers := [High, Medium, Low];
    for t := 0 to |tiers|
      invariant t > 0 ==> 4 * CountSeverity(errors, High) <= n
      invariant t > 1 ==> 4 * CountSeverity(errors, Medium) <= n
    {
      var share := (CountOr0(severityCounts, tiers[t]) as real) / (n as real);
      assert CountOr0(severityCounts, tiers[t]) == CountSeverity(errors, tiers[t]);
      QuarterShare(CountSeverity(errors, tiers[t]), n);
      if share > 0.25 {
        overallSeverity := tiers[t];
        break;
      }
    }
  }

  /** The body of the per-metric loop of `aggregate`: count severities, scan
      the tiers, build the finding. */
  method SummarizeGroup(metric: string, errors: seq<FrameError>, totalFramesAnalyzed: int) returns (agg: AggregatedError)
    requires errors != [] && totalFramesAnalyzed != 0
    ensures agg == Summarize(metric, errors, totalFramesAnalyzed)
  {
    var severityCounts := CountSeverities(errors);
    var overallSeverity := ScanTiers(errors, severityCounts);

    var n := |errors|;
    var maxDev := MaxDeviation(errors);
    var worstError := errors[FirstIndexOf(errors, maxDev)];
    agg := AggregatedError(
      metric := metric,
      severity := overallSeverity,
      avgMeasuredValue := SumBy(errors, MeasuredOf) / (n as real),
      idealMin := errors[0].idealMin,
      idealMax := errors[0].idealMax,
      avgDeviation := SumBy(errors, DeviationOf) / (n as real),
      maxDeviation := maxDev,
      frameCount := n,
      totalFramesAnalyzed := totalFramesAnalyzed,
      frequencyPct := (n as real) / (totalFramesAnalyzed as real) * 100.0,
      firstTimestampSec := MinTimestamp(errors),
      lastTimestampSec := MaxTimestamp(errors),
      durationSec := MaxTimestamp(errors) - MinTimestamp(errors),
      worstFrameNumber := worstError.frameNumber,
      worstTimestampSec := worstError.timestampSec,
      worstMeasuredValue := worstError.measuredValue,
      clipPath := None,
      thumbnailPath := None);
  }

  /** `count / n > 0.25` is `4 * count > n`. */
  lemma QuarterShare(count: nat, n: nat)
    requires n > 0
    ensures (count as real) / (n as real) > 0.25 <==> 4 * count > n
  {
    var c, d := count as real, n as real;
    var q := c / d;
    DivMulCancel(c, d);
    if q > 0.25 {
      PosMul(q - 0.25, d);
      assert (q - 0.25) * d == q * d - 0.25 * d;
    } else {
      NonNegMul(0.25 - q, d);
      assert (0.25 - q) * d == 0.25 * d - q * d;
    }
  }

  // ---------------------------------------------------------------------------
  // What a finding says about its metric's errors
  // ---------------------------------------------------------------------------

  /** Every error has exactly one of the three severities. */
  lemma {:induction false} SeverityCountsPartition(g: seq<FrameError>)
    ensures CountSeverity(g, High) + CountSeverity(g, Medium) + CountSeverity(g, Low) == |g|
    decreases |g|
  {
    if g != [] {
      SeverityCountsPartition(g[1..]);
    }
  }

  /** The overall severity is the most severe tier held by more than a
      quarter of the group. The LOW fallback always qualifies: when neither
      HIGH nor MEDIUM exceeds a quarter, LOW holds at least half. */
  lemma OverallSeverityQualifies(g: seq<FrameError>)
    requires g != []
    ensures 4 * CountSeverity(g, OverallSeverity(g)) > |g|
    ensures forall s :: BiomechanicalAnalysis.Rank(s) > BiomechanicalAnalysis.Rank(OverallSeverity(g)) ==>
              4 * CountSeverity(g, s) <= |g|
  {
    SeverityCountsPartition(g);
  }

  /** Sorting a group does not change its severity tally. */
  lemma OverallSeverityReordered(a: seq<FrameError>, b: seq<FrameError>)
    requires multiset(a) == multiset(b)
    ensures |a| == |b|
    ensures forall s :: CountSeverity(a, s) == CountSeverity(b, s)
    ensures OverallSeverity(a) == OverallSeverity(b)
  {
    assert |a| == |multiset(a)| == |multiset(b)| == |b|;
    forall s ensures CountSeverity(a, s) == CountSeverity(b, s) {
      CountByPermutation(a, b, HasSeverity(s));
    }
  }

  /** A mean of terms that are each at most `m` is at most `m`. */
  lemma MeanAtMost(sum: real, n: real, m: real)
    requires n > 0.0 && sum <= n * m
    ensures sum / n <= m
  {
  }

  /** The maximum and the time span bound every error of the group and are
      attained by some error of it; the average never exceeds the maximum. */
  lemma SummaryBounds(metric: string, g: seq<FrameError>, total: int)
    requires g != [] && total != 0
    ensures var f := Summarize(metric, g, total);
      && (forall e :: e in g ==> e.deviation <= f.maxDeviation)
      && (exists e :: e in g && e.deviation == f.maxDeviation)
      && (forall e :: e in g ==> f.firstTimestampSec <= e.timestampSec <= f.lastTimestampSec)
      && (exists e :: e in g && e.timestampSec == f.firstTimestampSec)
      && (exists e :: e in g && e.timestampSec == f.lastTimestampSec)
      && f.durationSec == f.lastTimestampSec - f.firstTimestampSec >= 0.0
  {
    var f := Summarize(metric, g, total);
    forall e | e in g ensures e.deviation <= f.maxDeviation && f.firstTimestampSec <= e.timestampSec <= f.lastTimestampSec {
      var k :| 0 <= k < |g| && g[k] == e;
    }
    var a :| 0 <= a < |g| && g[a].deviation == f.maxDeviation;
    var b :| 0 <= b < |g| && g[b].timestampSec == f.firstTimestampSec;
    var c :| 0 <= c < |g| && g[c].timestampSec == f.lastTimestampSec;
    assert g[a] in g && g[b] in g && g[c] in g;
  }

  /** The mean deviation never exceeds the maximum. */
  lemma SummaryMeanAtMostMax(metric: string, g: seq<FrameError>, total: int)
    requires g != [] && total != 0
    ensures Summarize(metric, g, total).avgDeviation <= Summarize(metric, g, total).maxDeviation
  {
    var m := MaxDeviation(g);
    assert forall i :: 0 <= i < |g| ==> DeviationOf(g[i]) <= m;
    SumByAtMost(g, DeviationOf, m);
    MeanAtMost(SumBy(g, DeviationOf), |g| as real, m);
  }

  /** In a group sorted by frame number, the first error with the largest
      deviation has the earliest frame among those errors, and the first
      error has the earliest frame of all. */
  lemma WorstOfSorted(g: seq<FrameError>)
    requires g != [] && Sorted(g, FrameOrder)
    ensures WorstOf(g) in g && WorstOf(g).deviation == MaxDeviation(g)
    ensures forall e :: e in g && e.deviation == MaxDeviation(g) ==> WorstOf(g).frameNumber <= e.frameNumber
    ensures forall e :: e in g ==> g[0].frameNumber <= e.frameNumber
  {
    var i := FirstIndexOf(g, MaxDeviation(g));
    forall e | e in g && e.deviation == MaxDeviation(g) ensures g[i].frameNumber <= e.frameNumber {
      var k :| 0 <= k < |g| && g[k] == e;
      assert i <= k;
      if i < k {
        assert FrameOrder(g[i]) <= FrameOrder(g[k]);
      }
    }
    forall e | e in g ensures g[0].frameNumber <= e.frameNumber {
      var k :| 0 <= k < |g| && g[k] == e;
      if 0 < k {
        assert FrameOrder(g[0]) <= FrameOrder(g[k]);
      }
    }
  }

  /** In a group sorted by frame number, the worst frame is an error with the
      largest deviation, the earliest such frame on a tie; the ideal range
      is that of an error with the earliest frame. */
  lemma SummaryWorstFrame(metric: string, g: seq<FrameError>, total: int)
    requires g != [] && total != 0
    requires Sorted(g, FrameOrder)
    ensures var f := Summarize(metric, g, total);
      && (exists w :: w in g && w.deviation == f.maxDeviation && w.frameNumber == f.worstFrameNumber
                       && w.timestampSec == f.worstTimestampSec && w.measuredValue == f.worstMeasuredValue)
      && (forall e :: e in g && e.deviation == f.maxDeviation ==> f.worstFrameNumber <= e.frameNumber)
      && (forall e :: e in g ==> g[0].frameNumber <= e.frameNumber)
      && f.idealMin == g[0].idealMin && f.idealMax == g[0].idealMax
  {
    WorstOfSorted(g);
  }

  /** The i-th finding before ranking summarises the i-th key's group. */
  lemma {:induction false} FindingsOfAt(errs: seq<FrameError>, total: int, keys: seq<string>, i: nat)
    requires total != 0
    requires forall m :: m in keys ==> GroupOf(errs, m) != []
    requires i < |keys|
    ensures FindingsOf(errs, total, keys)[i] == Summarize(keys[i], SortBy(GroupOf(errs, keys[i]), FrameOrder), total)
    decreases |keys|
  {
    if i < |keys| - 1 {
      var init := keys[..|keys| - 1];
      FindingsOfPrefix(errs, total, keys, i);
      FindingsOfAt(errs, total, init, i);
      assert init[i] == keys[i];
    }
  }

  lemma FindingsOfPrefix(errs: seq<FrameError>, total: int, keys: seq<string>, i: nat)
    requires total != 0
    requires forall m :: m in keys ==> GroupOf(errs, m) != []
    requires i < |keys| - 1
    ensures FindingsOf(errs, total, keys)[i] == FindingsOf(errs, total, keys[..|keys| - 1])[i]
  {
  }

  /** Where a finding sits among the findings before ranking. */
  lemma FindingIndex(errs: seq<FrameError>, total: int, f: AggregatedError) returns (i: nat)
    requires f in Aggregated(errs, total)
    ensures errs != [] && total != 0
    ensures i < |MetricsOf(errs)| && FindingsOf(errs, total, MetricsOf(errs))[i] == f
  {
    var fs := FindingsOf(errs, total, MetricsOf(errs));
    SortByPermutes(fs, PriorityDescending);
    assert f in multiset(fs);
    i :| 0 <= i < |fs| && fs[i] == f;
  }

  /** Every finding is the summary of its own metric's errors, sorted by frame. */
  lemma FindingOfMetric(errs: seq<FrameError>, total: int, f: AggregatedError)
    requires f in Aggregated(errs, total)
    ensures errs != [] && total != 0
    ensures GroupOf(errs, f.metric) != []
    ensures f == Summarize(f.metric, SortBy(GroupOf(errs, f.metric), FrameOrder), total)
  {
    var i := FindingIndex(errs, total, f);
    var keys := MetricsOf(errs);
    FindingsOfAt(errs, total, keys, i);
    assert keys[i] in keys;
  }

  /** The errors of a metric, as a multiset, are the errors of the input
      naming it; sorting them by frame does not change which they are. */
  lemma SortedGroupMembers(errs: seq<FrameError>, m: string)
    ensures multiset(SortBy(GroupOf(errs, m), FrameOrder)) == multiset(GroupOf(errs, m))
    ensures forall e :: e in SortBy(GroupOf(errs, m), FrameOrder) <==> e in errs && e.metric == m
  {
    var g := GroupOf(errs, m);
    SortBySortedPermutation(g, FrameOrder);
    forall e ensures e in SortBy(g, FrameOrder) <==> e in errs && e.metric == m {
      GroupMembership(errs, m, e);
      assert e in SortBy(g, FrameOrder) <==> e in multiset(SortBy(g, FrameOrder));
    }
  }

  /** What one finding of `aggregate` states about the errors of its metric:
      how many there are and how often they occur, their mean and maximum
      deviation, the time span they cover, the worst frame (largest deviation,
      earliest frame on a tie), and the overall severity (the most severe tier
      held by more than a quarter of them). */
  lemma FindingSummarizesItsMetric(errs: seq<FrameError>, total: int, f: AggregatedError)
    requires f in Aggregated(errs, total)
    ensures var g := GroupOf(errs, f.metric);
      && total != 0
      && f.frameCount == |g| > 0
      && f.totalFramesAnalyzed == total
      && f.frequencyPct == (f.frameCount as real) / (total as real) * 100.0
      && f.avgDeviation == SumBy(g, DeviationOf) / (f.frameCount as real)
      && f.avgMeasuredValue == SumBy(g, MeasuredOf) / (f.frameCount as real)
      && f.avgDeviation <= f.maxDeviation
      && (forall e :: e in errs && e.metric == f.metric ==> e.deviation <= f.maxDeviation)
      && (forall e :: e in errs && e.metric == f.metric ==>
            f.firstTimestampSec <= e.timestampSec <= f.lastTimestampSec)
      && (exists e :: e in errs && e.metric == f.metric && e.timestampSec == f.firstTimestampSec)
      && (exists e :: e in errs && e.metric == f.metric && e.timestampSec == f.lastTimestampSec)
      && f.durationSec == f.lastTimestampSec - f.firstTimestampSec >= 0.0
      && (exists w :: w in errs && w.metric == f.metric && w.deviation == f.maxDeviation
                       && w.frameNumber == f.worstFrameNumber && w.timestampSec == f.worstTimestampSec
                       && w.measuredValue == f.worstMeasuredValue)
      && (forall e :: e in errs && e.metric == f.metric && e.deviation == f.maxDeviation ==>
            f.worstFrameNumber <= e.frameNumber)
      && 4 * CountSeverity(g, f.severity) > f.frameCount
      && (forall s :: BiomechanicalAnalysis.Rank(s) > BiomechanicalAnalysis.Rank(f.severity) ==>
            4 * CountSeverity(g, s) <= f.frameCount)
  {
    FindingOfMetric(errs, total, f);
    var g := GroupOf(errs, f.metric);
    var sorted := SortBy(g, FrameOrder);
    SortedGroupMembers(errs, f.metric);
    SortBySortedPermutation(g, FrameOrder);
    SummaryBounds(f.metric, sorted, total);
    SummaryMeanAtMostMax(f.metric, sorted, total);
    SummaryWorstFrame(f.metric, sorted, total);
    SumByPermutation(sorted, g, DeviationOf);
    SumByPermutation(sorted, g, MeasuredOf);
    OverallSeverityReordered(sorted, g);
    OverallSeverityQualifies(g);
  }

  // ---------------------------------------------------------------------------
  // The shape and order of the result
  // ---------------------------------------------------------------------------

  function FindingMetric(a: AggregatedError): string { a.metric }

  /** No input, or no analysed frame, gives no findings; otherwise there is a
      finding for a metric exactly when some error names it. */
  lemma FindingPerMetric(errs: seq<FrameError>, total: int, m: string)
    ensures errs == [] || total == 0 ==> Aggregated(errs, total) == []
    ensures total != 0 ==>
      ((exists f :: f in Aggregated(errs, total) && f.metric == m) <==> (exists e :: e in errs && e.metric == m))
  {
    if total != 0 {
      if exists f :: f in Aggregated(errs, total) && f.metric == m {
        var f :| f in Aggregated(errs, total) && f.metric == m;
        ErrorForFinding(errs, total, f);
      }
      if exists e :: e in errs && e.metric == m {
        var e :| e in errs && e.metric == m;
        FindingForError(errs, total, e);
      }
    }
  }

  /** A finding's count is the size of its metric's group. */
  lemma FindingShare(errs: seq<FrameError>, total: int, f: AggregatedError)
    requires f in Aggregated(errs, total)
    ensures total != 0 && f.frameCount == |GroupOf(errs, f.metric)| > 0
    ensures f.frequencyPct == (f.frameCount as real) / (total as real) * 100.0
  {
    FindingOfMetric(errs, total, f);
    SortBySortedPermutation(GroupOf(errs, f.metric), FrameOrder);
  }

  /** Every finding names the metric of some error. */
  lemma ErrorForFinding(errs: seq<FrameError>, total: int, f: AggregatedError)
    requires f in Aggregated(errs, total)
    ensures exists e :: e in errs && e.metric == f.metric
  {
    FindingOfMetric(errs, total, f);
    var g := GroupOf(errs, f.metric);
    assert g[0] in g;
    GroupMembership(errs, f.metric, g[0]);
  }

  /** Every error's metric has a finding. */
  lemma FindingForError(errs: seq<FrameError>, total: int, e: FrameError)
    requires total != 0 && e in errs
    ensures exists f :: f in Aggregated(errs, total) && f.metric == e.metric
  {
    var keys := MetricsOf(errs);
    var fs := FindingsOf(errs, total, keys);
    GroupMembership(errs, e.metric, e);
    MetricsOfComplete(errs, e.metric);
    var i :| 0 <= i < |keys| && keys[i] == e.metric;
    FindingsOfAt(errs, total, keys, i);
    SortByPermutes(fs, PriorityDescending);
    assert fs[i] in multiset(Aggregated(errs, total));
  }

  /** The result holds at most one finding per metric. */
  lemma OneFindingPerMetric(errs: seq<FrameError>, total: int)
    ensures forall i, j :: 0 <= i < j < |Aggregated(errs, total)| ==>
              Aggregated(errs, total)[i].metric != Aggregated(errs, total)[j].metric
  {
    if errs != [] && total != 0 {
      var keys := MetricsOf(errs);
      var fs := FindingsOf(errs, total, keys);
      forall i, j | 0 <= i < j < |fs| ensures FindingMetric(fs[i]) != FindingMetric(fs[j]) {
        FindingsOfAt(errs, total, keys, i);
        FindingsOfAt(errs, total, keys, j);
      }
      SortByDistinct(fs, PriorityDescending, FindingMetric);
    }
  }

  /** The findings come highest priority first, and findings of equal
      priority keep the order in which their metrics first occurred. */
  lemma RankedByPriority(errs: seq<FrameError>, total: int, p: real)
    requires errs != [] && total != 0
    ensures forall i, j :: 0 <= i < j < |Aggregated(errs, total)| ==>
              Priority(Aggregated(errs, total)[i]) >= Priority(Aggregated(errs, total)[j])
    ensures WithKey(Aggregated(errs, total), PriorityDescending, p) ==
            WithKey(FindingsOf(errs, total, MetricsOf(errs)), PriorityDescending, p)
  {
    var fs := FindingsOf(errs, total, MetricsOf(errs));
    SortBySortedPermutation(fs, PriorityDescending);
    SortByStable(fs, PriorityDescending, p);
    var out := Aggregated(errs, total);
    forall i, j | 0 <= i < j < |out| ensures Priority(out[i]) >= Priority(out[j]) {
      assert PriorityDescending(out[i]) <= PriorityDescending(out[j]);
    }
  }

  // ---------------------------------------------------------------------------
  // Within the pipeline
  // ---------------------------------------------------------------------------

  /** The errors the pipeline hands to `aggregate`: every analysed frame's
      errors, frame after frame; `total_frames_analyzed` is the number of
      those frames. */
  function SessionErrors(ranges: BiomechanicalAnalysis.IdealRanges, frames: seq<FrameMetrics>): seq<FrameError>
  {
    if frames == [] then []
    else SessionErrors(ranges, frames[..|frames| - 1]) + BiomechanicalAnalysis.FrameErrors(ranges, frames[|frames| - 1])
  }

  lemma {:induction false} GroupOfAppend(a: seq<FrameError>, b: seq<FrameError>, m: string)
    ensures GroupOf(a + b, m) == GroupOf(a, m) + GroupOf(b, m)
    decreases |b|
  {
    if b == [] {
      assert a + b == a;
    } else {
      var init := b[..|b| - 1];
      GroupOfAppend(a, init, m);
      assert (a + b)[..|a + b| - 1] == a + init;
    }
  }

  /** A list that names each metric at most once holds at most one error of `m`. */
  lemma {:induction false} GroupOfNoRepeat(b: seq<FrameError>, m: string)
    requires BiomechanicalAnalysis.NoRepeatedMetric(b)
    ensures |GroupOf(b, m)| <= 1
    decreases |b|
  {
    if b != [] {
      var init := b[..|b| - 1];
      assert BiomechanicalAnalysis.NoRepeatedMetric(init) by {
        forall i, j | 0 <= i < j < |init| ensures init[i].metric != init[j].metric {
          assert init[i] == b[i] && init[j] == b[j];
        }
      }
      GroupOfNoRepeat(init, m);
      if b[|b| - 1].metric == m {
        assert forall i :: 0 <= i < |init| ==> init[i].metric != m by {
          forall i | 0 <= i < |init| ensures init[i].metric != m {
            assert init[i] == b[i];
          }
        }
        GroupOfNone(init, m);
      }
    }
  }

  lemma {:induction false} GroupOfNone(b: seq<FrameError>, m: string)
    requires forall i :: 0 <= i < |b| ==> b[i].metric != m
    ensures GroupOf(b, m) == []
    decreases |b|
  {
    if b != [] {
      GroupOfNone(b[..|b| - 1], m);
    }
  }

  /** Over a session, a metric has at most one error per analysed frame. */
  lemma {:induction false} SessionGroupAtMostFrames(ranges: BiomechanicalAnalysis.IdealRanges, frames: seq<FrameMetrics>, m: string)
    requires forall i :: 0 <= i < |frames| ==> UniqueKeys(frames[i].metrics)
    ensures |GroupOf(SessionErrors(ranges, frames), m)| <= |frames|
    decreases |frames|
  {
    if frames != [] {
      var init, last := frames[..|frames| - 1], frames[|frames| - 1];
      assert forall i :: 0 <= i < |init| ==> init[i] == frames[i];
      SessionGroupAtMostFrames(ranges, init, m);
      GroupOfAppend(SessionErrors(ranges, init), BiomechanicalAnalysis.FrameErrors(ranges, last), m);
      BiomechanicalAnalysis.AtMostOneErrorPerMetric(ranges, last, last.metrics);
      GroupOfNoRepeat(BiomechanicalAnalysis.FrameErrors(ranges, last), m);
    }
  }

  lemma ShareAtMostHundred(count: nat, total: nat)
    requires 0 < count <= total
    ensures 0.0 < (count as real) / (total as real) * 100.0 <= 100.0
  {
    var q := (count as real) / (total as real);
    assert q * (total as real) == count as real;
  }

  /** When the findings come from the analysed frames themselves, a finding
      covers at most every frame: its frequency is at most 100 %. */
  lemma FrequencyAtMostHundred(ranges: BiomechanicalAnalysis.IdealRanges, frames: seq<FrameMetrics>, f: AggregatedError)
    requires forall i :: 0 <= i < |frames| ==> UniqueKeys(frames[i].metrics)
    requires f in Aggregated(SessionErrors(ranges, frames), |frames|)
    ensures 0 < f.frameCount <= |frames|
    ensures 0.0 < f.frequencyPct <= 100.0
  {
    var errs := SessionErrors(ranges, frames);
    FindingShare(errs, |frames|, f);
    SessionGroupAtMostFrames(ranges, frames, f.metric);
    ShareAtMostHundred(f.frameCount, |frames|);
  }

  function KneeError(d: real, k: int): FrameError
  {
    FrameError("left_knee_angle", 95.0, 110.0, 170.0, d, k, (k as real) * 0.2, Medium)
  }

  /** Three errors of one metric with deviations 10, 20 and 30 over three
      analysed frames: one finding, mean 20, maximum 30, on every frame,
      worst at the last frame. */
  lemma ThreeErrorsExample()
    ensures var out := Aggregated([KneeError(10.0, 0), KneeError(20.0, 1), KneeError(30.0, 2)], 3);
      && |out| == 1
      && out[0].avgDeviation == 20.0
      && out[0].maxDeviation == 30.0
      && out[0].frameCount == 3
      && out[0].frequencyPct == 100.0
      && out[0].worstFrameNumber == 2
      && out[0].severity == Medium
  {
    var errs := [KneeError(10.0, 0), KneeError(20.0, 1), KneeError(30.0, 2)];
    var m := "left_knee_angle";
    ThreeErrorsGrouping();
    var f := Summarize(m, errs, 3);
    ThreeErrorsSummary();
    assert FindingsOf(errs, 3, [m]) == [f];
    assert SortBy([f], PriorityDescending) == [f];
  }

  lemma ThreeErrorsGrouping()
    ensures var errs := [KneeError(10.0, 0), KneeError(20.0, 1), KneeError(30.0, 2)];
      && MetricsOf(errs) == ["left_knee_angle"]
      && GroupOf(errs, "left_knee_angle") == errs
      && SortBy(errs, FrameOrder) == errs
  {
    var a, b, c := KneeError(10.0, 0), KneeError(20.0, 1), KneeError(30.0, 2);
    var errs := [a, b, c];
    var m := "left_knee_angle";
    assert errs[..2] == [a, b] && [a, b][..1] == [a] && [a][..0] == [];
    assert MetricsOf([a]) == [m];
    assert MetricsOf([a, b]) == [m];
    assert GroupOf([a], m) == [a];
    assert GroupOf([a, b], m) == [a, b];
    assert errs[1..] == [b, c] && [b, c][1..] == [c] && [c][1..] == [];
    assert SortBy([c], FrameOrder) == [c];
    assert SortBy([b, c], FrameOrder) == [b, c];
  }

  /** The fields of a finding the example reads, each by its statistic. */
  lemma SummaryFields(metric: string, g: seq<FrameError>, total: int)
    requires g != [] && total != 0
    ensures var f := Summarize(metric, g, total);
      && f.avgDeviation == SumBy(g, DeviationOf) / (|g| as real)
      && f.maxDeviation == MaxDeviation(g)
      && f.frameCount == |g|
      && f.frequencyPct == (|g| as real) / (total as real) * 100.0
      && f.worstFrameNumber == WorstOf(g).frameNumber
      && f.severity == OverallSeverity(g)
  {
  }

  lemma ThreeErrorsDeviations()
    ensures var errs := [KneeError(10.0, 0), KneeError(20.0, 1), KneeError(30.0, 2)];
      && SumBy(errs, DeviationOf) == 60.0
      && MaxDeviation(errs) == 30.0
      && WorstOf(errs) == KneeError(30.0, 2)
  {
    var a, b, c := KneeError(10.0, 0), KneeError(20.0, 1), KneeError(30.0, 2);
    var errs := [a, b, c];
    assert errs[1..] == [b, c] && [b, c][1..] == [c] && [c][1..] == [];
    assert SumBy([c], DeviationOf) == 30.0;
    assert SumBy([b, c], DeviationOf) == 50.0;
    assert MaxDeviation([b, c]) == 30.0;
    assert FirstIndexOf(errs, 30.0) == 2;
  }

  lemma ThreeErrorsSeverities()
    ensures var errs := [KneeError(10.0, 0), KneeError(20.0, 1), KneeError(30.0, 2)];
      CountSeverity(errs, High) == 0 && CountSeverity(errs, Medium) == 3
  {
    var a, b, c := KneeError(10.0, 0), KneeError(20.0, 1), KneeError(30.0, 2);
    var errs := [a, b, c];
    assert errs[1..] == [b, c] && [b, c][1..] == [c] && [c][1..] == [];
    assert CountSeverity([c], High) == 0 && CountSeverity([c], Medium) == 1;
    assert CountSeverity([b, c], High) == 0 && CountSeverity([b, c], Medium) == 2;
  }

  /** The mean deviation of the example's finding. */
  lemma ThreeErrorsMean()
    ensures Summarize("left_knee_angle", [KneeError(10.0, 0), KneeError(20.0, 1), KneeError(30.0, 2)], 3).avgDeviation == 20.0
  {
    var errs := [KneeError(10.0, 0), KneeError(20.0, 1), KneeError(30.0, 2)];
    ThreeErrorsDeviations();
    SummaryFields("left_knee_angle", errs, 3);
    Quotient(SumBy(errs, DeviationOf), |errs| as real, 20.0);
  }

  /** The frequency of the example's finding. */
  lemma ThreeErrorsFrequency()
    ensures Summarize("left_knee_angle", [KneeError(10.0, 0), KneeError(20.0, 1), KneeError(30.0, 2)], 3).frequencyPct == 100.0
  {
    var errs := [KneeError(10.0, 0), KneeError(20.0, 1), KneeError(30.0, 2)];
    EveryFrameFrequency("left_knee_angle", errs, 3);
  }

  lemma ThreeErrorsSummary()
    ensures var f := Summarize("left_knee_angle", [KneeError(10.0, 0), KneeError(20.0, 1), KneeError(30.0, 2)], 3);
      && f.avgDeviation == 20.0
      && f.maxDeviation == 30.0
      && f.frameCount == 3
      && f.frequencyPct == 100.0
      && f.worstFrameNumber == 2
      && f.severity == Medium
  {
    ThreeErrorsDeviations();
    ThreeErrorsSeverities();
    ThreeErrorsMean();
    ThreeErrorsFrequency();
    SummaryFields("left_knee_angle", [KneeError(10.0, 0), KneeError(20.0, 1), KneeError(30.0, 2)], 3);
  }

  /** A finding whose errors cover every analysed frame has frequency 100. */
  lemma EveryFrameFrequency(metric: string, g: seq<FrameError>, total: int)
    requires g != [] && total == |g|
    ensures Summarize(metric, g, total).frequencyPct == 100.0
  {
    Quotient(|g| as real, total as real, 1.0);
  }

  lemma Quotient(a: real, b: real, q: real)
    requires b != 0.0 && a == q * b
    ensures a / b == q
  {
  }

}
