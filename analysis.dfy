/**
 * The counting parts of the sigma-root-T analysis report: grouping the
 * history per option, the trend buckets of the first-to-last change, and
 * the test of whether an option's second half moved back towards its mean.
 *
 * Expiry parsing, days to expiry and sigma * sqrt(T) are the same
 * definitions as the backtester's, so they are taken from there.
 */
module Analysis {
  import opened Wrappers
  import opened Sorting
  import opened Grouping
  import opened Filtering
  import opened Stats
  import opened Backtest

  /** An observation as `analyze_data` keeps it; its timestamp is the raw text the API sent. */
  datatype Observation = Observation(timestamp: string, iv: real, dte: int, srt: real, apy: Option<real>, asset: string)

  /** The observation a row yields: exactly those with a sigma * sqrt(T). */
  function ObservationOf(r: HistoryRecord, sqrt: SquareRoot): (o: Option<Observation>)
    ensures o.Some? <==> CalcSigmaRootT(r.midIv, CalcDte(r.expiry, r.timestamp), sqrt).Some?
    ensures o.Some? ==> o.value.dte > 0 && Some(o.value.iv) == r.midIv && o.value.timestamp == r.rawTimestamp
  {
    var dte := CalcDte(r.expiry, r.timestamp);
    var srt := CalcSigmaRootT(r.midIv, dte, sqrt);
    if srt.Some? then Some(Observation(r.rawTimestamp, r.midIv.value, dte.value, srt.value, r.apy, r.asset))
    else None
  }

  function ObservationItems(rows: seq<HistoryRecord>, sqrt: SquareRoot): (items: seq<(OptionKey, Observation)>)
    ensures |items| <= |rows|
    decreases |rows|
  {
    if rows == [] then []
    else
      var r := rows[|rows| - 1];
      var o := ObservationOf(r, sqrt);
      ObservationItems(rows[..|rows| - 1], sqrt) + (if o.Some? then [(KeyOf(r), o.value)] else [])
  }

  lemma ObservationItemsSnoc(rows: seq<HistoryRecord>, sqrt: SquareRoot, n: int)
    requires 0 <= n < |rows|
    ensures var o := ObservationOf(rows[n], sqrt);
            ObservationItems(rows[..n + 1], sqrt)
            == ObservationItems(rows[..n], sqrt) + (if o.Some? then [(KeyOf(rows[n]), o.value)] else [])
  {
    assert rows[..n + 1][..n] == rows[..n];
  }

  /** The grouping loop of `analyze_data`. */
  method GroupObservations(rows: seq<HistoryRecord>, sqrt: SquareRoot) returns (gs: seq<Group<OptionKey, Observation>>)
    ensures gs == GroupItems(ObservationItems(rows, sqrt))
  {
    gs := [];
    for n := 0 to |rows|
      invariant gs == GroupItems(ObservationItems(rows[..n], sqrt))
    {
      var row := rows[n];
      var o := ObservationOf(row, sqrt);
      ObservationItemsSnoc(rows, sqrt, n);
      if o.Some? {
        GroupItemsSnoc(ObservationItems(rows[..n], sqrt), KeyOf(row), o.value);
        gs := Append(gs, KeyOf(row), o.value);
      } else {
        assert ObservationItems(rows[..n], sqrt) + [] == ObservationItems(rows[..n], sqrt);
      }
    }
    assert rows[..|rows|] == rows;
  }

  predicate HasFivePoints(g: Group<OptionKey, Observation>) { |g.values| >= 5 }

  predicate HasTwoPoints(g: Group<OptionKey, Observation>) { |g.values| >= 2 }

  predicate HasTenPoints(g: Group<OptionKey, Observation>) { |g.values| >= 10 }

  /** Ordering by the raw timestamp text, as `sorted(points, key=lambda x: x['timestamp'])` does. */
  predicate TimestampTextLe(a: Observation, b: Observation) {
    StrLe(a.timestamp, b.timestamp)
  }

  function InTimeOrder(points: seq<Observation>): (s: seq<Observation>)
    ensures |s| == |points|
  {
    SortBy(points, TimestampTextLe)
  }

  function SrtsOf(points: seq<Observation>): (vals: seq<real>)
    ensures |vals| == |points| && forall i :: 0 <= i < |points| ==> vals[i] == points[i].srt
  {
    seq(|points|, i requires 0 <= i < |points| => points[i].srt)
  }

  // ---------------------------------------------------------------------------
  // Trend buckets
  // ---------------------------------------------------------------------------

  datatype Trend = Rising | Falling | Flat

  /** The first-to-last change of sigma * sqrt(T) bucketed at +/-5%. */
  function TrendOf(points: seq<Observation>): (t: Trend)
    requires |points| >= 2
    ensures var change := ChangePct(points[|points| - 1].srt - points[0].srt, points[0].srt);
            (t == Rising <==> change > 5.0) && (t == Falling <==> change < -5.0)
  {
    var change := ChangePct(points[|points| - 1].srt - points[0].srt, points[0].srt);
    if change > 5.0 then Rising else if change < -5.0 then Falling else Flat
  }

  /** The trend of every option with at least two observations, in option order. */
  function Trends(options: seq<Group<OptionKey, Observation>>): seq<Trend>
    decreases |options|
  {
    if options == [] then []
    else
      var points := InTimeOrder(options[|options| - 1].values);
      Trends(options[..|options| - 1]) + (if |points| < 2 then [] else [TrendOf(points)])
  }

  /** How many entries of `s` equal `x`: one counter of the summary. */
  function Occurrences<T(==)>(s: seq<T>, x: T): (n: nat)
    ensures n <= |s|
    decreases |s|
  {
    if s == [] then 0
    else Occurrences(s[..|s| - 1], x) + (if s[|s| - 1] == x then 1 else 0)
  }

  /** Every trend lands in exactly one bucket. */
  lemma {:induction false} BucketsPartition(ts: seq<Trend>)
    ensures Occurrences(ts, Rising) + Occurrences(ts, Falling) + Occurrences(ts, Flat) == |ts|
    decreases |ts|
  {
    if ts != [] {
      var init, last := ts[..|ts| - 1], ts[|ts| - 1];
      assert ts == init + [last];
      BucketsPartition(init);
      OccurrencesSnoc(init, last, Rising);
      OccurrencesSnoc(init, last, Falling);
      OccurrencesSnoc(init, last, Flat);
      assert last.Rising? || last.Falling? || last.Flat?;
    }
  }

  /** One trend per option with at least two observations. */
  lemma {:induction false} TrendsCount(options: seq<Group<OptionKey, Observation>>)
    ensures |Trends(options)| == |Filter(options, HasTwoPoints)|
    decreases |options|
  {
    if options != [] {
      TrendsCount(options[..|options| - 1]);
    }
  }

  lemma TrendsSnoc(options: seq<Group<OptionKey, Observation>>, k: int)
    requires 0 <= k < |options|
    ensures var points := InTimeOrder(options[k].values);
            Trends(options[..k + 1]) == Trends(options[..k]) + (if |points| < 2 then [] else [TrendOf(points)])
  {
    assert options[..k + 1][..k] == options[..k];
  }

  lemma OccurrencesSnoc<T>(s: seq<T>, x: T, y: T)
    ensures Occurrences(s + [x], y) == Occurrences(s, y) + (if x == y then 1 else 0)
  {
    assert (s + [x])[..|s|] == s;
  }

  /** The loop over options of the trend analysis, with its three counters. */
  method CountTrends(options: seq<Group<OptionKey, Observation>>) returns (rising: nat, falling: nat, flat: nat)
    ensures rising == Occurrences(Trends(options), Rising)
    ensures falling == Occurrences(Trends(options), Falling)
    ensures flat == Occurrences(Trends(options), Flat)
  {
    rising, falling, flat := 0, 0, 0;
    ghost var ts: seq<Trend> := [];
    for k := 0 to |options|
      invariant ts == Trends(options[..k])
      invariant rising == Occurrences(ts, Rising)
      invariant falling == Occurrences(ts, Falling)
      invariant flat == Occurrences(ts, Flat)
    {
      var points := InTimeOrder(options[k].values);
      TrendsSnoc(options, k);
      if |points| < 2 {
        assert ts + [] == ts;
        continue;
      }
      var firstSrt, lastSrt := points[0].srt, points[|points| - 1].srt;
      var change := ChangePct(lastSrt - firstSrt, firstSrt);
      ghost var trend := TrendOf(points);
      if change > 5.0 {
        assert trend == Rising;
        rising := rising + 1;
      } else if change < -5.0 {
        assert trend == Falling;
        falling := falling + 1;
      } else {
        assert trend == Flat;
        flat := flat + 1;
      }
      OccurrencesSnoc(ts, trend, Rising);
      OccurrencesSnoc(ts, trend, Falling);
      OccurrencesSnoc(ts, trend, Flat);
      ts := ts + [trend];
    }
    assert options[..|options|] == options;
  }

  // ---------------------------------------------------------------------------
  // Mean reversion against continuation
  // ---------------------------------------------------------------------------

  /**
   * Whether an option's second half moved back towards its overall mean:
   * its first half sat above the mean and the second half came down, or it
   * sat below and the second half went up.
   */
  function Reverted(points: seq<Observation>): bool
    requires |points| >= 10
  {
    var srts := SrtsOf(points);
    var mid := |points| / 2;
    var mean := Mean(srts);
    var firstHalf := Mean(srts[..mid]);
    var secondHalf := Mean(srts[mid..]);
    (firstHalf > mean && secondHalf < firstHalf) || (firstHalf < mean && secondHalf > firstHalf)
  }

  /** A flat series has both halves on the mean, so it is counted as a continuation. */
  lemma FlatSeriesContinues(points: seq<Observation>)
    requires |points| >= 10
    requires forall i :: 0 <= i < |points| ==> points[i].srt == points[0].srt
    ensures !Reverted(points)
  {
    var c, srts, mid := points[0].srt, SrtsOf(points), |points| / 2;
    MeanOfConstant(srts, c);
    MeanOfConstant(srts[..mid], c);
    MeanOfConstant(srts[mid..], c);
  }

  /** The verdict for every option with at least ten observations, in option order. */
  function Verdicts(options: seq<Group<OptionKey, Observation>>): seq<bool>
    decreases |options|
  {
    if options == [] then []
    else
      var points := InTimeOrder(options[|options| - 1].values);
      Verdicts(options[..|options| - 1]) + (if |points| < 10 then [] else [Reverted(points)])
  }

  lemma {:induction false} VerdictsPartition(bs: seq<bool>)
    ensures Occurrences(bs, true) + Occurrences(bs, false) == |bs|
    decreases |bs|
  {
    if bs != [] {
      var init, last := bs[..|bs| - 1], bs[|bs| - 1];
      assert bs == init + [last];
      VerdictsPartition(init);
      OccurrencesSnoc(init, last, true);
      OccurrencesSnoc(init, last, false);
    }
  }

  /** One verdict per option with at least ten observations. */
  lemma {:induction false} VerdictsCount(options: seq<Group<OptionKey, Observation>>)
    ensures |Verdicts(options)| == |Filter(options, HasTenPoints)|
    decreases |options|
  {
    if options != [] {
      VerdictsCount(options[..|options| - 1]);
    }
  }

  lemma VerdictsSnoc(options: seq<Group<OptionKey, Observation>>, k: int)
    requires 0 <= k < |options|
    ensures var points := InTimeOrder(options[k].values);
            Verdicts(options[..k + 1]) == Verdicts(options[..k]) + (if |points| < 10 then [] else [Reverted(points)])
  {
    assert options[..k + 1][..k] == options[..k];
  }

  /** The loop of the mean-reversion test, with its two counters. */
  method CountReversions(options: seq<Group<OptionKey, Observation>>) returns (reversion: nat, continuation: nat)
    ensures reversion == Occurrences(Verdicts(options), true)
    ensures continuation == Occurrences(Verdicts(options), false)
  {
    reversion, continuation := 0, 0;
    for k := 0 to |options|
      invariant reversion == Occurrences(Verdicts(options[..k]), true)
      invariant continuation == Occurrences(Verdicts(options[..k]), false)
    {
      var points := InTimeOrder(options[k].values);
      VerdictsSnoc(options, k);
      if |points| < 10 {
        assert Verdicts(options[..k]) + [] == Verdicts(options[..k]);
        continue;
      }
      var srtValues := SrtsOf(points);
      var meanSrt := Mean(srtValues);
      var mid := |points| / 2;
      var firstHalfAvg := Mean(srtValues[..mid]);
      var secondHalfAvg := Mean(srtValues[mid..]);
      OccurrencesSnoc(Verdicts(options[..k]), Reverted(points), true);
      OccurrencesSnoc(Verdicts(options[..k]), Reverted(points), false);
      if firstHalfAvg > meanSrt && secondHalfAvg < firstHalfAvg {
        reversion := reversion + 1;
      } else if firstHalfAvg < meanSrt && secondHalfAvg > firstHalfAvg {
        reversion := reversion + 1;
      } else {
        continuation := continuation + 1;
      }
    }
    assert options[..|options|] == options;
  }

  // ---------------------------------------------------------------------------
  // The report
  // ---------------------------------------------------------------------------

  /** The counts `analyze_data` reports. */
  datatype Report = Report(
    totalRecords: nat, uniqueOptions: nat, assets: set<string>, optionsWithData: nat,
    rising: nat, falling: nat, flat: nat, reversion: nat, continuation: nat)

  function OptionsWithData(rows: seq<HistoryRecord>, sqrt: SquareRoot): seq<Group<OptionKey, Observation>> {
    Filter(GroupItems(ObservationItems(rows, sqrt)), HasFivePoints)
  }

  /** What `analyze_data` reports, or None when no option has five observations. */
  function AnalysisReport(rows: seq<HistoryRecord>, sqrt: SquareRoot): Option<Report> {
    var options := GroupItems(ObservationItems(rows, sqrt));
    var withData := Filter(options, HasFivePoints);
    if withData == [] then None
    else
      var trends := Trends(withData);
      var verdicts := Verdicts(withData);
      Some(Report(|rows|, |options|, set r | r in rows :: r.asset, |withData|,
                  Occurrences(trends, Rising), Occurrences(trends, Falling), Occurrences(trends, Flat),
                  Occurrences(verdicts, true), Occurrences(verdicts, false)))
  }

  /**
   * Every option with data falls in exactly one trend bucket, and every one
   * with at least ten observations is counted exactly once as reverting or
   * continuing.
   */
  lemma AnalysisReportFacts(rows: seq<HistoryRecord>, sqrt: SquareRoot)
    ensures var r := AnalysisReport(rows, sqrt);
            r.Some? ==>
              r.value.rising + r.value.falling + r.value.flat == r.value.optionsWithData
              && r.value.reversion + r.value.continuation == |Filter(OptionsWithData(rows, sqrt), HasTenPoints)|
              && r.value.optionsWithData <= r.value.uniqueOptions
  {
    var withData := OptionsWithData(rows, sqrt);
    BucketsPartition(Trends(withData));
    TrendsCount(withData);
    assert forall i :: 0 <= i < |withData| ==> HasTwoPoints(withData[i]) by {
      forall i | 0 <= i < |withData| ensures HasTwoPoints(withData[i]) {
        assert withData[i] in withData;
      }
    }
    FilterAll(withData, HasTwoPoints);
    VerdictsPartition(Verdicts(withData));
    VerdictsCount(withData);
  }

  /** `analyze_data`, without its printing and its floating-point statistics. */
  method AnalyzeData(rows: seq<HistoryRecord>, sqrt: SquareRoot) returns (report: Option<Report>)
    ensures report == AnalysisReport(rows, sqrt)
  {
    var options := GroupObservations(rows, sqrt);
    var withData := Filter(options, HasFivePoints);
    if withData == [] {
      return None;
    }
    var rising, falling, flat := CountTrends(withData);
    var reversion, continuation := CountReversions(withData);
    report := Some(Report(|rows|, |options|, set r | r in rows :: r.asset, |withData|,
                          rising, falling, flat, reversion, continuation));
  }
}
