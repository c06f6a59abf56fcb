/**
 * The data logic around the forecast model: the dense hourly asset-level
 * series, the per-option IV ratios, the combo DTE filter, the distribution
 * of the asset forecast to options and the forecast rows written.
 *
 * The forecasting model itself, the database and the clock are outside the
 * model: their outputs (forecast values, query results, `now`) are inputs.
 */
module ForecastRunner {
  import opened Wrappers
  import opened Strings
  import opened Calendar
  import opened Sorting
  import opened Grouping
  import opened Filtering
  import opened Stats
  import Backtest

  const Horizon: nat := 168
  const MinHistoryPoints: nat := 48
  const MinDteDays: int := 7
  const RatioLookbackHours: nat := 48

  // ---------------------------------------------------------------------------
  // Expiry parsing
  // ---------------------------------------------------------------------------

  /**
   * `parse_expiry` of the forecast runner: like the backtester's, except
   * that an unknown month abbreviation is read as January. A slice that is
   * not a number or a date `datetime` rejects raises, modelled as None.
   */
  function ParseExpiry(expiry: string): (d: Option<Date>)
    ensures d.Some? ==> ValidDate(d.value)
    ensures d.Some? ==> d.value.month == MonthFromAbbrev(Upper(Slice(expiry, 2, 5))).GetOr(1)
  {
    var day := ParseInt(Slice(expiry, 0, 2));
    var month := MonthFromAbbrev(Upper(Slice(expiry, 2, 5))).GetOr(1);
    var year := ParseInt(Slice(expiry, 5, 7));
    if day.None? || year.None? then None
    else
      var d := Date(2000 + year.value, month, day.value);
      if ValidDate(d) then Some(d) else None
  }

  /** Wherever the backtester's parser succeeds, this one reads the same date. */
  lemma ParseExpiryAgrees(expiry: string)
    ensures Backtest.ParseExpiry(expiry).Some? ==> ParseExpiry(expiry) == Backtest.ParseExpiry(expiry)
  {
  }

  /** An unknown month is where the two parsers part: this one falls back to January, the backtester's fails. */
  lemma UnknownMonthIsJanuary(expiry: string)
    requires MonthFromAbbrev(Upper(Slice(expiry, 2, 5))).None?
    ensures Backtest.ParseExpiry(expiry).None?
    ensures ParseExpiry(expiry).Some? ==> ParseExpiry(expiry).value.month == 1
  {
  }

  // ---------------------------------------------------------------------------
  // The asset-level hourly series
  // ---------------------------------------------------------------------------

  /** A row of `get_all_iv_snapshots`: only rows with a mid IV are selected. */
  datatype SnapshotRow = SnapshotRow(timestamp: int, strike: real, expiry: string, midIv: real)

  /** (hour, mid IV) for every row, in row order. */
  function HourItems(rows: seq<SnapshotRow>): (items: seq<(int, real)>)
    ensures |items| == |rows|
    ensures forall i :: 0 <= i < |rows| ==> items[i] == (HourOf(rows[i].timestamp), rows[i].midIv)
  {
    seq(|rows|, i requires 0 <= i < |rows| => (HourOf(rows[i].timestamp), rows[i].midIv))
  }

  /** The mid IVs of the rows that fall in hour `h`, in row order. */
  function Bucket(rows: seq<SnapshotRow>, h: int): seq<real> {
    ValuesFor(HourItems(rows), h)
  }

  lemma HourOfAligned(ts: int)
    ensures HourOf(ts) % MicrosPerHour == 0
    ensures HourOf(ts) <= ts < HourOf(ts) + MicrosPerHour
  {
  }

  /** The hourly bucketing loop. */
  method BucketByHour(rows: seq<SnapshotRow>) returns (buckets: seq<Group<int, real>>)
    ensures buckets == GroupItems(HourItems(rows))
  {
    buckets := [];
    for n := 0 to |rows|
      invariant buckets == GroupItems(HourItems(rows[..n]))
    {
      var r := rows[n];
      var hourKey := HourOf(r.timestamp);
      assert HourItems(rows[..n + 1]) == HourItems(rows[..n]) + [(hourKey, r.midIv)];
      GroupItemsSnoc(HourItems(rows[..n]), hourKey, r.midIv);
      buckets := Append(buckets, hourKey, r.midIv);
    }
    assert rows[..|rows|] == rows;
  }

  function IntLe(a: int, b: int): bool { a <= b }

  /** `sorted(buckets.keys())` */
  function SortedHours(rows: seq<SnapshotRow>): seq<int> {
    SortBy(Keys(GroupItems(HourItems(rows))), IntLe)
  }

  /** A key of the buckets is the hour of some row, so it is on the hourly grid and has data. */
  lemma BucketKey(rows: seq<SnapshotRow>, h: int)
    requires h in Keys(GroupItems(HourItems(rows)))
    ensures Bucket(rows, h) != [] && h % MicrosPerHour == 0
  {
    var items := HourItems(rows);
    var gs := GroupItems(items);
    var i :| 0 <= i < |gs| && gs[i].key == h;
    assert IndexOf(gs, h) >= 0;
    GroupItemsHas(items, h);
    GroupItemsKeys(items, h);
    var n :| 0 <= n < |items| && items[n].0 == h;
    HourOfAligned(rows[n].timestamp);
  }

  /** Some hour is bucketed as soon as there is a row. */
  lemma SortedHoursNonEmpty(rows: seq<SnapshotRow>)
    requires rows != []
    ensures |SortedHours(rows)| > 0
  {
    var items := HourItems(rows);
    ValuesForHas(items, 0);
    GroupItemsHas(items, items[0].0);
    assert |GroupItems(items)| > 0;
  }

  /** The hour of every row lies between the first and the last sorted hour. */
  lemma SortedHoursBound(rows: seq<SnapshotRow>, n: nat)
    requires n < |rows| && |SortedHours(rows)| > 0
    ensures var hours := SortedHours(rows);
            hours[0] <= HourOf(rows[n].timestamp) <= hours[|hours| - 1]
  {
    var items := HourItems(rows);
    var gs := GroupItems(items);
    var hours := SortedHours(rows);
    var h := HourOf(rows[n].timestamp);
    assert items[n].0 == h;
    ValuesForHas(items, n);
    GroupItemsHas(items, h);
    var i := IndexOf(gs, h);
    assert Keys(gs)[i] == h;
    SortByMembers(Keys(gs), IntLe, h);
    var j :| 0 <= j < |hours| && hours[j] == h;
    assert SortedBy(hours, IntLe) by {
      assert TotalPreorder(IntLe);
      SortBySorted(Keys(gs), IntLe);
    }
    if 0 < j {
      assert IntLe(hours[0], hours[j]);
    }
    if j < |hours| - 1 {
      assert IntLe(hours[j], hours[|hours| - 1]);
    }
  }

  /** The first and last bucketed hours have data, lie on the grid, and bound every row's hour. */
  lemma SortedHoursFacts(rows: seq<SnapshotRow>)
    requires rows != []
    ensures var hours := SortedHours(rows);
            |hours| > 0
            && Bucket(rows, hours[0]) != [] && Bucket(rows, hours[|hours| - 1]) != []
            && hours[0] % MicrosPerHour == 0 && hours[|hours| - 1] % MicrosPerHour == 0
            && forall r :: r in rows ==> hours[0] <= HourOf(r.timestamp) <= hours[|hours| - 1]
  {
    SortedHoursNonEmpty(rows);
    var gs := GroupItems(HourItems(rows));
    var hours := SortedHours(rows);
    SortByMembers(Keys(gs), IntLe, hours[0]);
    SortByMembers(Keys(gs), IntLe, hours[|hours| - 1]);
    BucketKey(rows, hours[0]);
    BucketKey(rows, hours[|hours| - 1]);
    forall r | r in rows
      ensures hours[0] <= HourOf(r.timestamp) <= hours[|hours| - 1]
    {
      var n :| 0 <= n < |rows| && rows[n] == r;
      SortedHoursBound(rows, n);
    }
  }

  /** Successive stamps one hour apart. */
  ghost predicate Hourly(ts: seq<int>) {
    forall i, j :: 0 <= i < |ts| && j == i + 1 && j < |ts| ==> ts[j] == ts[i] + MicrosPerHour
  }

  lemma {:induction false} HourlyIndex(ts: seq<int>, k: nat)
    requires Hourly(ts) && k < |ts|
    ensures ts[k] == ts[0] + k * MicrosPerHour
  {
    if k > 0 {
      HourlyIndex(ts, k - 1);
    }
  }

  lemma MultiplesApart(a: int, b: int)
    requires a % MicrosPerHour == 0 && b % MicrosPerHour == 0 && a < b
    ensures a + MicrosPerHour <= b
  {
    var x, y := a / MicrosPerHour, b / MicrosPerHour;
    assert a == x * MicrosPerHour && b == y * MicrosPerHour;
    assert x < y;
  }

  /** An hourly grid between two on-grid ends holds every on-grid hour in between. */
  lemma {:induction false} HourlyCovers(ts: seq<int>, h: int)
    requires Hourly(ts) && |ts| > 0
    requires ts[|ts| - 1] % MicrosPerHour == 0 && h % MicrosPerHour == 0
    requires ts[0] <= h <= ts[|ts| - 1]
    ensures h in ts
    decreases |ts|
  {
    var last := ts[|ts| - 1];
    if h != last {
      MultiplesApart(h, last);
      var init := ts[..|ts| - 1];
      assert init[|init| - 1] == last - MicrosPerHour;
      assert (last - MicrosPerHour) % MicrosPerHour == 0;
      HourlyCovers(init, h);
    }
  }

  /** A grid from the first bucketed hour to the last holds the hour of every row. */
  lemma SeriesCovers(rows: seq<SnapshotRow>, ts: seq<int>)
    requires rows != [] && Hourly(ts) && |ts| > 0
    requires ts[0] == SortedHours(rows)[0] && ts[|ts| - 1] == SortedHours(rows)[|SortedHours(rows)| - 1]
    ensures forall r :: r in rows ==> HourOf(r.timestamp) in ts
  {
    SortedHoursFacts(rows);
    forall r | r in rows
      ensures HourOf(r.timestamp) in ts
    {
      HourOfAligned(r.timestamp);
      HourlyCovers(ts, HourOf(r.timestamp));
    }
  }

  /** The median of hour `h`'s bucket, if the hour has one. */
  function HourMedian(buckets: seq<Group<int, real>>, h: int): (m: Option<real>)
    ensures m.Some? <==> IndexOf(buckets, h) >= 0 && Lookup(buckets, h) != []
  {
    var i := IndexOf(buckets, h);
    if i < 0 || buckets[i].values == [] then None else Some(Median(buckets[i].values))
  }

  lemma HourMedianIsBucketMedian(rows: seq<SnapshotRow>, h: int)
    ensures HourMedian(GroupItems(HourItems(rows)), h) ==
            if Bucket(rows, h) != [] then Some(Median(Bucket(rows, h))) else None
  {
    GroupItemsHas(HourItems(rows), h);
  }

  lemma HourSpan(a: int, b: int)
    requires a % MicrosPerHour == 0 && b % MicrosPerHour == 0
    ensures (b - a) % MicrosPerHour == 0
  {
    var x, y := a / MicrosPerHour, b / MicrosPerHour;
    assert b - a == (y - x) * MicrosPerHour;
  }

  /** The walk stops after the hour that reaches `end`. */
  lemma GridEnd(start: int, end: int, n: int)
    requires start <= end && (end - start) % MicrosPerHour == 0
    requires end < start + n * MicrosPerHour <= end + MicrosPerHour
    ensures n == (end - start) / MicrosPerHour + 1
    ensures start + (n - 1) * MicrosPerHour == end
  {
    var span := (end - start) / MicrosPerHour;
    assert end == start + span * MicrosPerHour;
    assert span * MicrosPerHour < n * MicrosPerHour <= (span + 1) * MicrosPerHour;
    assert span < n <= span + 1;
  }

  /** What the grid walk leaves at each hour, in terms of the rows' buckets. */
  lemma FilledFromBuckets(rows: seq<SnapshotRow>, ts: seq<int>, vals: seq<real>)
    requires Filled(GroupItems(HourItems(rows)), ts, vals)
    ensures forall k :: 0 <= k < |ts| && Bucket(rows, ts[k]) != [] ==> vals[k] == Median(Bucket(rows, ts[k]))
    ensures forall k :: 0 < k < |ts| && Bucket(rows, ts[k]) == [] ==> vals[k] == vals[k - 1]
  {
    forall k | 0 <= k < |ts|
      ensures HourMedian(GroupItems(HourItems(rows)), ts[k]) ==
              if Bucket(rows, ts[k]) != [] then Some(Median(Bucket(rows, ts[k]))) else None
    {
      HourMedianIsBucketMedian(rows, ts[k]);
    }
  }

  /** Each grid value is its hour's median where the hour has data, and the previous value elsewhere. */
  ghost predicate Filled(buckets: seq<Group<int, real>>, ts: seq<int>, vals: seq<real>) {
    |ts| == |vals|
    && (forall k :: 0 <= k < |ts| && HourMedian(buckets, ts[k]).Some? ==> vals[k] == HourMedian(buckets, ts[k]).value)
    && (forall k :: 0 < k < |ts| && HourMedian(buckets, ts[k]).None? ==> vals[k] == vals[k - 1])
  }

  lemma HourlySnoc(ts: seq<int>, t: int)
    requires Hourly(ts) && (|ts| > 0 ==> ts[|ts| - 1] + MicrosPerHour == t)
    ensures Hourly(ts + [t])
  {
    var ts' := ts + [t];
    forall k | 0 <= k < |ts'| - 1
      ensures ts'[k + 1] == ts'[k] + MicrosPerHour
    {
      if k + 1 < |ts| {
        assert ts'[k] == ts[k] && ts'[k + 1] == ts[k + 1];
      }
    }
  }

  /** One more hour of the walk keeps the grid filled. */
  lemma FilledSnoc(buckets: seq<Group<int, real>>, ts: seq<int>, vals: seq<real>, t: int, v: real)
    requires Filled(buckets, ts, vals)
    requires HourMedian(buckets, t).Some? ==> v == HourMedian(buckets, t).value
    requires HourMedian(buckets, t).None? && |vals| > 0 ==> v == vals[|vals| - 1]
    ensures Filled(buckets, ts + [t], vals + [v])
  {
    var ts', vals' := ts + [t], vals + [v];
    forall k | 0 <= k < |ts'| && HourMedian(buckets, ts'[k]).Some?
      ensures vals'[k] == HourMedian(buckets, ts'[k]).value
    {
      if k < |ts| {
        assert ts'[k] == ts[k] && vals'[k] == vals[k];
      }
    }
    forall k | 0 < k < |ts'| && HourMedian(buckets, ts'[k]).None?
      ensures vals'[k] == vals'[k - 1]
    {
      if k < |ts| {
        assert ts'[k] == ts[k] && vals'[k] == vals[k] && vals'[k - 1] == vals[k - 1];
      }
    }
  }

  /** The state of the grid walk after the hours before `current`. */
  ghost predicate Walked(buckets: seq<Group<int, real>>, start: int, current: int, ts: seq<int>, vals: seq<real>, last: real) {
    Filled(buckets, ts, vals) && Hourly(ts)
    && (|ts| == 0 ==> current == start)
    && (|ts| > 0 ==> ts[0] == start && ts[|ts| - 1] + MicrosPerHour == current && last == vals[|vals| - 1])
  }

  /** One hour of the walk: the hour's median if it has one, else the last value carried forward. */
  lemma WalkStep(buckets: seq<Group<int, real>>, start: int, current: int, ts: seq<int>, vals: seq<real>, last: real, next: real)
    requires Walked(buckets, start, current, ts, vals, last)
    requires next == if HourMedian(buckets, current).Some? then HourMedian(buckets, current).value else last
    ensures Walked(buckets, start, current + MicrosPerHour, ts + [current], vals + [next], next)
  {
    FilledSnoc(buckets, ts, vals, current, next);
    HourlySnoc(ts, current);
  }

  /** The grid walk of `build_asset_level_series`, from `start` to `end` one hour at a time. */
  method FillHours(buckets: seq<Group<int, real>>, start: int, end: int)
      returns (hourlyTs: seq<int>, hourlyVals: seq<real>)
    requires start <= end && (end - start) % MicrosPerHour == 0
    requires HourMedian(buckets, start).Some?
    ensures |hourlyTs| == |hourlyVals| == (end - start) / MicrosPerHour + 1
    ensures Hourly(hourlyTs)
    ensures hourlyTs[0] == start && hourlyTs[|hourlyTs| - 1] == end
    ensures Filled(buckets, hourlyTs, hourlyVals)
  {
    hourlyTs, hourlyVals := [], [];
    var current := start;
    var lastMedian := HourMedian(buckets, start).value;
    while current <= end
      invariant Walked(buckets, start, current, hourlyTs, hourlyVals, lastMedian)
      invariant start <= current <= end + MicrosPerHour
      decreases end - current
    {
      var m := HourMedian(buckets, current);
      var next := if m.Some? then m.value else lastMedian;
      WalkStep(buckets, start, current, hourlyTs, hourlyVals, lastMedian, next);
      hourlyTs := hourlyTs + [current];
      hourlyVals := hourlyVals + [next];
      lastMedian := next;
      current := current + MicrosPerHour;
    }
    var n := |hourlyTs|;
    assert start + n * MicrosPerHour == current by {
      HourlyIndex(hourlyTs, n - 1);
      assert (n - 1) * MicrosPerHour + MicrosPerHour == n * MicrosPerHour;
    }
    GridEnd(start, end, n);
  }

  /** The number of hours from the first bucketed hour to the last, both included; 0 without rows. */
  function GridLength(rows: seq<SnapshotRow>): (n: nat)
    ensures n == 0 <==> rows == []
  {
    if rows == [] then 0
    else
      SortedHoursFacts(rows);
      var hours := SortedHours(rows);
      var first, last := hours[0], hours[|hours| - 1];
      assert first <= last by { assert rows[0] in rows; }
      (last - first) / MicrosPerHour + 1
  }

  lemma GridLengthOf(rows: seq<SnapshotRow>)
    requires rows != []
    ensures var hours := SortedHours(rows);
            |hours| > 0 && GridLength(rows) == (hours[|hours| - 1] - hours[0]) / MicrosPerHour + 1
  {
    SortedHoursFacts(rows);
  }

  /**
   * `build_asset_level_series`: one value per hour from the first bucketed
   * hour to the last, with no gaps; at an hour with data the median of its
   * bucket, at an hour without the previous hour's value.
   */
  method BuildAssetLevelSeries(rows: seq<SnapshotRow>) returns (hourlyTs: seq<int>, hourlyVals: seq<real>)
    ensures rows == [] ==> hourlyTs == [] && hourlyVals == []
    ensures |hourlyTs| == |hourlyVals|
    ensures |hourlyTs| == GridLength(rows)
    ensures Hourly(hourlyTs)
    ensures |hourlyTs| > 0 ==> Bucket(rows, hourlyTs[0]) != [] && Bucket(rows, hourlyTs[|hourlyTs| - 1]) != []
    ensures forall r :: r in rows ==> HourOf(r.timestamp) in hourlyTs
    ensures forall k :: 0 <= k < |hourlyTs| && Bucket(rows, hourlyTs[k]) != [] ==>
              hourlyVals[k] == Median(Bucket(rows, hourlyTs[k]))
    ensures forall k :: 0 < k < |hourlyTs| && Bucket(rows, hourlyTs[k]) == [] ==> hourlyVals[k] == hourlyVals[k - 1]
  {
    if rows == [] {
      return [], [];
    }
    var buckets := BucketByHour(rows);
    var sortedHours := SortBy(Keys(buckets), IntLe);
    assert sortedHours == SortedHours(rows);
    SortedHoursNonEmpty(rows);
    var start, end := sortedHours[0], sortedHours[|sortedHours| - 1];
    GridEnds(rows, buckets, start, end);
    hourlyTs, hourlyVals := FillHours(buckets, start, end);
    GridFacts(rows, hourlyTs, hourlyVals);
  }

  /** The first and last bucketed hours lie a whole number of hours apart. */
  lemma HourSpanOf(rows: seq<SnapshotRow>)
    requires rows != []
    ensures var hours := SortedHours(rows);
            |hours| > 0 && (hours[|hours| - 1] - hours[0]) % MicrosPerHour == 0
  {
    SortedHoursFacts(rows);
    var hours := SortedHours(rows);
    HourSpan(hours[0], hours[|hours| - 1]);
  }

  /** The first and last bucketed hours bound a whole number of hours, and the first has a median. */
  lemma GridEnds(rows: seq<SnapshotRow>, buckets: seq<Group<int, real>>, start: int, end: int)
    requires rows != [] && buckets == GroupItems(HourItems(rows))
    requires var hours := SortedHours(rows);
             |hours| > 0 && start == hours[0] && end == hours[|hours| - 1]
    ensures start <= end && (end - start) % MicrosPerHour == 0 && HourMedian(buckets, start).Some?
  {
    SortedHoursBound(rows, 0);
    HourSpanOf(rows);
    SortByMembers(Keys(buckets), IntLe, start);
    BucketKey(rows, start);
    HourMedianIsBucketMedian(rows, start);
  }

  /** What the filled grid of `build_asset_level_series` says about the rows it came from. */
  lemma GridFacts(rows: seq<SnapshotRow>, ts: seq<int>, vals: seq<real>)
    requires rows != [] && |SortedHours(rows)| > 0 && |ts| > 0
    requires var hours := SortedHours(rows);
             |ts| == |vals| == (hours[|hours| - 1] - hours[0]) / MicrosPerHour + 1
             && Hourly(ts) && ts[0] == hours[0] && ts[|ts| - 1] == hours[|hours| - 1]
    requires Filled(GroupItems(HourItems(rows)), ts, vals)
    ensures |ts| == GridLength(rows)
    ensures Bucket(rows, ts[0]) != [] && Bucket(rows, ts[|ts| - 1]) != []
    ensures forall r :: r in rows ==> HourOf(r.timestamp) in ts
    ensures forall k :: 0 <= k < |ts| && Bucket(rows, ts[k]) != [] ==> vals[k] == Median(Bucket(rows, ts[k]))
    ensures forall k :: 0 < k < |ts| && Bucket(rows, ts[k]) == [] ==> vals[k] == vals[k - 1]
  {
    GridLengthOf(rows);
    SortedHoursFacts(rows);
    FilledFromBuckets(rows, ts, vals);
    SeriesCovers(rows, ts);
  }

  // ---------------------------------------------------------------------------
  // Per-combo ratios
  // ---------------------------------------------------------------------------

  /** A row of `get_top_combos`. */
  datatype Combo = Combo(strike: real, expiry: string, optionType: string)

  /** The (strike, expiry) pair that names a combo. */
  type ComboKey = (real, string)

  function RowKey(r: SnapshotRow): ComboKey {
    (r.strike, r.expiry)
  }

  /** `{(c['strike'], c['expiry']) for c in combos}` */
  function ComboSet(combos: seq<Combo>): (ks: set<ComboKey>)
    ensures forall c :: c in combos ==> (c.strike, c.expiry) in ks
    ensures forall k :: k in ks ==> exists c :: c in combos && k == (c.strike, c.expiry)
  {
    set c | c in combos :: (c.strike, c.expiry)
  }

  /** How many pairs `zip` yields. */
  function ZipLength(ts: seq<int>, vals: seq<real>): (n: nat)
    ensures n <= |ts| && n <= |vals|
    ensures n == |ts| || n == |vals|
  {
    if |ts| <= |vals| then |ts| else |vals|
  }

  /** The dictionary built from the first `n` (hour, value) pairs; a later pair overwrites an earlier one. */
  function ZipMap(ts: seq<int>, vals: seq<real>, n: nat): (m: map<int, real>)
    requires n <= |ts| && n <= |vals|
    ensures forall i :: 0 <= i < n ==> ts[i] in m
    decreases n
  {
    if n == 0 then map[] else ZipMap(ts, vals, n - 1)[ts[n - 1] := vals[n - 1]]
  }

  lemma {:induction false} HourlyIncreasing(ts: seq<int>, i: nat, j: nat)
    requires Hourly(ts) && i < j < |ts|
    ensures ts[i] < ts[j]
    decreases j
  {
    if i < j - 1 {
      HourlyIncreasing(ts, i, j - 1);
    }
  }

  /** On an hourly series no hour repeats, so the dictionary gives back each hour's own value. */
  lemma {:induction false} ZipMapHourly(ts: seq<int>, vals: seq<real>, n: nat, i: nat)
    requires n <= |ts| && n <= |vals| && i < n
    requires Hourly(ts)
    ensures ZipMap(ts, vals, n)[ts[i]] == vals[i]
    decreases n
  {
    if i < n - 1 {
      HourlyIncreasing(ts, i, n - 1);
      ZipMapHourly(ts, vals, n - 1, i);
      assert ZipMap(ts, vals, n) == ZipMap(ts, vals, n - 1)[ts[n - 1] := vals[n - 1]];
    }
  }

  /** The start of the ratio window: `lookback` hours before the last hour of the series. */
  function RatioCutoff(ts: seq<int>): int
    requires ts != []
  {
    ts[|ts| - 1] - RatioLookbackHours * MicrosPerHour
  }

  /** Whether a row is recent enough and falls at an hour with a positive asset-level IV. */
  predicate Usable(r: SnapshotRow, cutoff: int, byHour: map<int, real>) {
    r.timestamp >= cutoff && HourOf(r.timestamp) in byHour && byHour[HourOf(r.timestamp)] > 0.0
  }

  /** The option-to-asset IV ratios the rows of combo `key` contribute, in row order. */
  function RatioSamples(rows: seq<SnapshotRow>, key: ComboKey, cutoff: int, byHour: map<int, real>): (s: seq<real>)
    ensures |s| <= |rows|
    decreases |rows|
  {
    if rows == [] then []
    else
      var r := rows[|rows| - 1];
      RatioSamples(rows[..|rows| - 1], key, cutoff, byHour)
        + (if RowKey(r) == key && Usable(r, cutoff, byHour) then [r.midIv / byHour[HourOf(r.timestamp)]] else [])
  }

  lemma RatioSamplesSnoc(rows: seq<SnapshotRow>, r: SnapshotRow, key: ComboKey, cutoff: int, byHour: map<int, real>)
    ensures RatioSamples(rows + [r], key, cutoff, byHour) == RatioSamples(rows, key, cutoff, byHour)
              + (if RowKey(r) == key && Usable(r, cutoff, byHour) then [r.midIv / byHour[HourOf(r.timestamp)]] else [])
  {
    assert (rows + [r])[..|rows|] == rows;
  }

  /** Every sample is the ratio of one usable row of that combo to the asset IV at its hour. */
  lemma {:induction false} RatioSampleOrigin(rows: seq<SnapshotRow>, key: ComboKey, cutoff: int, byHour: map<int, real>, v: real)
    requires v in RatioSamples(rows, key, cutoff, byHour)
    ensures exists r :: r in rows && RowKey(r) == key && Usable(r, cutoff, byHour)
                        && v == r.midIv / byHour[HourOf(r.timestamp)]
    decreases |rows|
  {
    var init := rows[..|rows| - 1];
    var r := rows[|rows| - 1];
    if v in RatioSamples(init, key, cutoff, byHour) {
      RatioSampleOrigin(init, key, cutoff, byHour, v);
      var q :| q in init && RowKey(q) == key && Usable(q, cutoff, byHour) && v == q.midIv / byHour[HourOf(q.timestamp)];
      assert q in rows;
    } else {
      assert r in rows;
    }
  }

  /** A row that is not of the combo, or not usable, contributes nothing. */
  lemma RatioSamplesSkip(rows: seq<SnapshotRow>, r: SnapshotRow, key: ComboKey, cutoff: int, byHour: map<int, real>)
    requires RowKey(r) != key || !Usable(r, cutoff, byHour)
    ensures RatioSamples(rows + [r], key, cutoff, byHour) == RatioSamples(rows, key, cutoff, byHour)
  {
    RatioSamplesSnoc(rows, r, key, cutoff, byHour);
  }

  /** The median of a combo's samples, or 1.0 when it has none. */
  function RatioOf(samples: seq<real>): real {
    if samples == [] then 1.0 else Median(samples)
  }

  /** `compute_option_ratios` */
  function OptionRatios(rows: seq<SnapshotRow>, ts: seq<int>, vals: seq<real>, combos: seq<Combo>): (ratios: map<ComboKey, real>)
    ensures ts == [] || vals == [] ==> ratios == map[]
    ensures ts != [] && vals != [] ==> ratios.Keys == ComboSet(combos)
  {
    if ts == [] || vals == [] then map[]
    else
      var byHour := ZipMap(ts, vals, ZipLength(ts, vals));
      var cutoff := RatioCutoff(ts);
      map k | k in ComboSet(combos) :: RatioOf(RatioSamples(rows, k, cutoff, byHour))
  }

  /**
   * A combo's ratio: 1.0 when no row of it is usable, otherwise a value
   * between the smallest and the largest of its samples.
   */
  lemma OptionRatioBounds(rows: seq<SnapshotRow>, ts: seq<int>, vals: seq<real>, combos: seq<Combo>, k: ComboKey)
    requires ts != [] && vals != [] && k in ComboSet(combos)
    ensures var s := RatioSamples(rows, k, RatioCutoff(ts), ZipMap(ts, vals, ZipLength(ts, vals)));
            var ratio := OptionRatios(rows, ts, vals, combos)[k];
            (s == [] ==> ratio == 1.0) && (s != [] ==> MinOf(s) <= ratio <= MaxOf(s))
  {
    var s := RatioSamples(rows, k, RatioCutoff(ts), ZipMap(ts, vals, ZipLength(ts, vals)));
    if s != [] {
      MedianBounds(s);
    }
  }

  /** `asset_by_hour`, filled pair by pair. */
  method AssetByHour(ts: seq<int>, vals: seq<real>) returns (assetByHour: map<int, real>)
    ensures assetByHour == ZipMap(ts, vals, ZipLength(ts, vals))
  {
    assetByHour := map[];
    var pairs := ZipLength(ts, vals);
    for i := 0 to pairs
      invariant assetByHour == ZipMap(ts, vals, i)
    {
      assetByHour := assetByHour[ts[i] := vals[i]];
    }
  }

  /** After the first `n` rows, every combo's list holds exactly its samples from those rows. */
  ghost predicate SamplesUpTo(raw: map<ComboKey, seq<real>>, rows: seq<SnapshotRow>, n: nat,
                              comboSet: set<ComboKey>, cutoff: int, byHour: map<int, real>)
    requires n <= |rows|
  {
    raw.Keys == comboSet
    && forall k :: k in comboSet ==> raw[k] == RatioSamples(rows[..n], k, cutoff, byHour)
  }

  /** A usable row of a tracked combo appends its ratio to that combo's list. */
  lemma SamplesStepAdd(raw: map<ComboKey, seq<real>>, rows: seq<SnapshotRow>, j: nat,
                       comboSet: set<ComboKey>, cutoff: int, byHour: map<int, real>)
    requires j < |rows| && SamplesUpTo(raw, rows, j, comboSet, cutoff, byHour)
    requires RowKey(rows[j]) in comboSet && Usable(rows[j], cutoff, byHour)
    ensures var r := rows[j];
            SamplesUpTo(raw[RowKey(r) := raw[RowKey(r)] + [r.midIv / byHour[HourOf(r.timestamp)]]],
                        rows, j + 1, comboSet, cutoff, byHour)
  {
    var r := rows[j];
    var next := raw[RowKey(r) := raw[RowKey(r)] + [r.midIv / byHour[HourOf(r.timestamp)]]];
    assert rows[..j + 1] == rows[..j] + [r];
    forall k | k in comboSet
      ensures next[k] == RatioSamples(rows[..j + 1], k, cutoff, byHour)
    {
      RatioSamplesSnoc(rows[..j], r, k, cutoff, byHour);
    }
  }

  /** Any other row leaves every list as it is. */
  lemma SamplesStepSkip(raw: map<ComboKey, seq<real>>, rows: seq<SnapshotRow>, j: nat,
                        comboSet: set<ComboKey>, cutoff: int, byHour: map<int, real>)
    requires j < |rows| && SamplesUpTo(raw, rows, j, comboSet, cutoff, byHour)
    requires RowKey(rows[j]) !in comboSet || !Usable(rows[j], cutoff, byHour)
    ensures SamplesUpTo(raw, rows, j + 1, comboSet, cutoff, byHour)
  {
    var r := rows[j];
    assert rows[..j + 1] == rows[..j] + [r];
    forall k | k in comboSet
      ensures raw[k] == RatioSamples(rows[..j + 1], k, cutoff, byHour)
    {
      RatioSamplesSkip(rows[..j], r, k, cutoff, byHour);
    }
  }

  /** `option_ratios_raw`: each combo's samples, appended row by row. */
  method CollectRatioSamples(rows: seq<SnapshotRow>, comboSet: set<ComboKey>, cutoff: int, assetByHour: map<int, real>)
      returns (raw: map<ComboKey, seq<real>>)
    ensures raw.Keys == comboSet
    ensures forall k :: k in comboSet ==> raw[k] == RatioSamples(rows, k, cutoff, assetByHour)
  {
    raw := map k | k in comboSet :: [];
    for j := 0 to |rows|
      invariant SamplesUpTo(raw, rows, j, comboSet, cutoff, assetByHour)
    {
      var r := rows[j];
      var key := RowKey(r);
      if key in comboSet && r.timestamp >= cutoff {
        var hourKey := HourOf(r.timestamp);
        if hourKey in assetByHour && assetByHour[hourKey] > 0.0 {
          SamplesStepAdd(raw, rows, j, comboSet, cutoff, assetByHour);
          raw := raw[key := raw[key] + [r.midIv / assetByHour[hourKey]]];
        } else {
          SamplesStepSkip(raw, rows, j, comboSet, cutoff, assetByHour);
        }
      } else {
        SamplesStepSkip(raw, rows, j, comboSet, cutoff, assetByHour);
      }
    }
    assert rows[..|rows|] == rows;
  }

  /** `compute_option_ratios` */
  method ComputeOptionRatios(rows: seq<SnapshotRow>, ts: seq<int>, vals: seq<real>, combos: seq<Combo>)
      returns (ratios: map<ComboKey, real>)
    ensures ratios == OptionRatios(rows, ts, vals, combos)
  {
    if ts == [] || vals == [] {
      return map[];
    }
    var assetByHour := AssetByHour(ts, vals);
    var cutoff := RatioCutoff(ts);
    var comboSet := ComboSet(combos);
    var raw := CollectRatioSamples(rows, comboSet, cutoff, assetByHour);
    ratios := map k | k in raw :: if raw[k] != [] then Median(raw[k]) else 1.0;
    ghost var spec := OptionRatios(rows, ts, vals, combos);
    assert spec.Keys == ratios.Keys;
    forall k | k in ratios
      ensures ratios[k] == spec[k]
    {
      assert raw[k] == RatioSamples(rows, k, cutoff, assetByHour);
    }
  }

  // ---------------------------------------------------------------------------
  // Collecting an asset's data
  // ---------------------------------------------------------------------------

  /** `(expiry_dt - now).total_seconds() / 86400` */
  function DteDays(expiry: Date, now: int): real
    requires ValidDate(expiry)
  {
    (Midnight(expiry) - now) as real / MicrosPerDay as real
  }

  /** A combo survives the DTE filter iff its expiry parses and lies at least `MinDteDays` days ahead. */
  predicate Tradable(c: Combo, now: int) {
    var d := ParseExpiry(c.expiry);
    d.Some? && DteDays(d.value, now) >= MinDteDays as real
  }

  /** On whole microseconds, the DTE bound reads: at least seven full days between now and expiry midnight. */
  lemma TradableMeansSevenDays(c: Combo, now: int)
    ensures Tradable(c, now) <==>
              ParseExpiry(c.expiry).Some? && Midnight(ParseExpiry(c.expiry).value) - now >= MinDteDays * MicrosPerDay
  {
    var d := ParseExpiry(c.expiry);
    if d.Some? {
      var x := (Midnight(d.value) - now) as real;
      assert DteDays(d.value, now) == x / 86_400_000_000.0;
      assert MinDteDays * MicrosPerDay == 604_800_000_000;
    }
  }

  function ValidCombos(combos: seq<Combo>, now: int): seq<Combo> {
    Filter(combos, c => Tradable(c, now))
  }

  /** Exactly the tradable combos survive the filter, in their original order. */
  lemma ValidCombosExact(combos: seq<Combo>, now: int, c: Combo)
    ensures c in ValidCombos(combos, now) <==> c in combos && Tradable(c, now)
  {
    if c in combos && Tradable(c, now) {
      FilterKeeps(combos, c => Tradable(c, now), c);
    }
  }

  /** The DTE filter loop of `collect_asset_data`; an expiry that does not parse is skipped. */
  method FilterCombos(combos: seq<Combo>, now: int) returns (valid: seq<Combo>)
    ensures valid == ValidCombos(combos, now)
  {
    valid := [];
    for i := 0 to |combos|
      invariant valid == ValidCombos(combos[..i], now)
    {
      var combo := combos[i];
      assert combos[..i + 1][..i] == combos[..i];
      var expiry := ParseExpiry(combo.expiry);
      if expiry.Some? {
        var dte := DteDays(expiry.value, now);
        if dte >= MinDteDays as real {
          valid := valid + [combo];
        }
      }
    }
    assert combos[..|combos|] == combos;
  }

  /** What `collect_asset_data` keeps for one asset. */
  datatype AssetData = AssetData(asset: string, assetTs: seq<int>, assetVals: seq<real>,
                                 combos: seq<Combo>, ratios: map<ComboKey, real>)

  /** One asset's query results: every snapshot with a mid IV, and its top combos. */
  datatype AssetInput = AssetInput(asset: string, rows: seq<SnapshotRow>, topCombos: seq<Combo>)

  /**
   * The body of `collect_asset_data`'s loop for one asset: skipped when it
   * has no rows, fewer than `MinHistoryPoints` hourly points or no combo
   * left after the DTE filter.
   */
  method CollectAsset(input: AssetInput, now: int) returns (data: Option<AssetData>)
    ensures data.None? <==> input.rows == [] || GridLength(input.rows) < MinHistoryPoints
                            || ValidCombos(input.topCombos, now) == []
    ensures data.Some? ==>
              var d := data.value;
              d.asset == input.asset
              && |d.assetTs| == |d.assetVals| == GridLength(input.rows)
              && Hourly(d.assetTs)
              && d.combos == ValidCombos(input.topCombos, now)
              && d.ratios == OptionRatios(input.rows, d.assetTs, d.assetVals, d.combos)
  {
    if input.rows == [] {
      return None;
    }
    var assetTs, assetVals := BuildAssetLevelSeries(input.rows);
    if |assetVals| < MinHistoryPoints {
      return None;
    }
    var validCombos := FilterCombos(input.topCombos, now);
    if validCombos == [] {
      return None;
    }
    var ratios := ComputeOptionRatios(input.rows, assetTs, assetVals, validCombos);
    return Some(AssetData(input.asset, assetTs, assetVals, validCombos, ratios));
  }

  /** Whether `collect_asset_data` keeps an asset's data. */
  predicate Accepted(input: AssetInput, now: int) {
    input.rows != [] && GridLength(input.rows) >= MinHistoryPoints && ValidCombos(input.topCombos, now) != []
  }

  /** The inputs `collect_asset_data` keeps, in input order. */
  function AcceptedInputs(inputs: seq<AssetInput>, now: int): (kept: seq<AssetInput>)
    ensures |kept| <= |inputs|
    ensures forall a :: a in kept <==> a in inputs && Accepted(a, now)
    decreases |inputs|
  {
    if inputs == [] then []
    else
      var last := inputs[|inputs| - 1];
      assert inputs == inputs[..|inputs| - 1] + [last];
      AcceptedInputs(inputs[..|inputs| - 1], now) + (if Accepted(last, now) then [last] else [])
  }

  /** The data CollectAsset computes for an accepted input. */
  ghost predicate DataOf(d: AssetData, input: AssetInput, now: int) {
    d.asset == input.asset
    && |d.assetTs| == |d.assetVals| == GridLength(input.rows)
    && Hourly(d.assetTs)
    && d.combos == ValidCombos(input.topCombos, now)
    && d.ratios == OptionRatios(input.rows, d.assetTs, d.assetVals, d.combos)
  }

  /** `collect_asset_data` over every tracked asset, in order. */
  method CollectAssetData(inputs: seq<AssetInput>, now: int) returns (result: seq<AssetData>)
    ensures |result| == |AcceptedInputs(inputs, now)|
    ensures forall k :: 0 <= k < |result| ==> DataOf(result[k], AcceptedInputs(inputs, now)[k], now)
    ensures forall a :: a in inputs && Accepted(a, now) ==> exists d :: d in result && d.asset == a.asset
    ensures |result| <= |inputs|
    ensures forall d :: d in result ==>
              |d.assetVals| >= MinHistoryPoints && Hourly(d.assetTs) && |d.assetTs| == |d.assetVals|
              && d.combos != [] && (forall c :: c in d.combos ==> Tradable(c, now))
              && exists a :: a in inputs && a.asset == d.asset && a.rows != []
  {
    result := [];
    for i := 0 to |inputs|
      invariant |result| == |AcceptedInputs(inputs[..i], now)|
      invariant forall k :: 0 <= k < |result| ==> DataOf(result[k], AcceptedInputs(inputs[..i], now)[k], now)
    {
      var data := CollectAsset(inputs[i], now);
      AcceptedStep(inputs, i, now);
      if data.Some? {
        result := result + [data.value];
      }
    }
    assert inputs[..|inputs|] == inputs;
    CollectedFacts(inputs, result, now);
  }

  /** What follows for each collected datum from the accepted inputs being collected in order. */
  lemma CollectedFacts(inputs: seq<AssetInput>, result: seq<AssetData>, now: int)
    requires |result| == |AcceptedInputs(inputs, now)|
    requires forall k :: 0 <= k < |result| ==> DataOf(result[k], AcceptedInputs(inputs, now)[k], now)
    ensures forall a :: a in inputs && Accepted(a, now) ==> exists d :: d in result && d.asset == a.asset
    ensures forall d :: d in result ==>
              |d.assetVals| >= MinHistoryPoints && Hourly(d.assetTs) && |d.assetTs| == |d.assetVals|
              && d.combos != [] && (forall c :: c in d.combos ==> Tradable(c, now))
              && exists a :: a in inputs && a.asset == d.asset && a.rows != []
  {
    var kept := AcceptedInputs(inputs, now);
    forall a | a in inputs && Accepted(a, now)
      ensures exists d :: d in result && d.asset == a.asset
    {
      var k :| 0 <= k < |kept| && kept[k] == a;
      assert result[k] in result;
    }
    forall d | d in result
      ensures |d.assetVals| >= MinHistoryPoints && Hourly(d.assetTs) && |d.assetTs| == |d.assetVals|
              && d.combos != [] && (forall c :: c in d.combos ==> Tradable(c, now))
              && exists a :: a in inputs && a.asset == d.asset && a.rows != []
    {
      var k :| 0 <= k < |result| && result[k] == d;
      assert kept[k] in kept;
      DataOfAccepted(d, kept[k], now);
    }
  }

  /** Keeping one more input appends it exactly when it is accepted. */
  lemma AcceptedStep(inputs: seq<AssetInput>, i: nat, now: int)
    requires i < |inputs|
    ensures AcceptedInputs(inputs[..i + 1], now)
            == AcceptedInputs(inputs[..i], now) + (if Accepted(inputs[i], now) then [inputs[i]] else [])
  {
    assert inputs[..i + 1][..i] == inputs[..i];
  }

  /** The data of an accepted input has enough history and only tradable combos. */
  lemma DataOfAccepted(d: AssetData, input: AssetInput, now: int)
    requires DataOf(d, input, now) && Accepted(input, now)
    ensures |d.assetVals| >= MinHistoryPoints && Hourly(d.assetTs) && |d.assetTs| == |d.assetVals|
    ensures d.combos != [] && forall c :: c in d.combos ==> Tradable(c, now)
  {
  }

  // ---------------------------------------------------------------------------
  // Distributing the asset forecast to the options
  // ---------------------------------------------------------------------------

  /** What `store_forecasts` needs to know about one option. */
  datatype ForecastMeta = ForecastMeta(asset: string, strike: real, expiry: string, optionType: string, lastTs: int)

  /** `ratios.get(key, 1.0)` */
  function RatioFor(ratios: map<ComboKey, real>, c: Combo): (ratio: real)
    ensures (c.strike, c.expiry) !in ratios ==> ratio == 1.0
  {
    var key := (c.strike, c.expiry);
    if key in ratios then ratios[key] else 1.0
  }

  /** `max(0.0, x * ratio)`: one scaled value clamped at zero. */
  function ScaleClamped(x: real, ratio: real): (v: real)
    ensures v >= 0.0 && v >= x * ratio
    ensures x * ratio >= 0.0 ==> v == x * ratio
  {
    Max(0.0, x * ratio)
  }

  /** The option's point forecast: the asset forecast scaled by the ratio, clamped at zero. */
  function ScaledPoints(assetPf: seq<real>, ratio: real): (pf: seq<real>)
    requires |assetPf| >= Horizon
    ensures |pf| == Horizon
    ensures forall h :: 0 <= h < Horizon ==> pf[h] >= 0.0 && pf[h] >= assetPf[h] * ratio
    ensures forall h :: 0 <= h < Horizon && assetPf[h] * ratio >= 0.0 ==> pf[h] == assetPf[h] * ratio
  {
    seq(Horizon, h requires 0 <= h < Horizon => ScaleClamped(assetPf[h], ratio))
  }

  /** The option's quantile forecast; a missing asset quantile stays missing. */
  function ScaledQuantiles(assetQ: Option<seq<real>>, ratio: real): (q: seq<Option<real>>)
    requires assetQ.Some? ==> |assetQ.value| >= Horizon
    ensures |q| == Horizon
    ensures forall h :: 0 <= h < Horizon ==> (q[h].Some? <==> assetQ.Some?)
    ensures forall h :: 0 <= h < Horizon && q[h].Some? ==>
              q[h].value >= 0.0 && q[h].value >= assetQ.value[h] * ratio
  {
    if assetQ.None? then seq(Horizon, _ => None)
    else
      var v := assetQ.value;
      seq(Horizon, h requires 0 <= h < Horizon => Some(ScaleClamped(v[h], ratio)))
  }

  /** A combo without a ratio follows the non-negative asset forecast unchanged. */
  lemma NoRatioFollowsAsset(assetPf: seq<real>, ratios: map<ComboKey, real>, c: Combo)
    requires |assetPf| >= Horizon && (c.strike, c.expiry) !in ratios
    requires forall h :: 0 <= h < Horizon ==> assetPf[h] >= 0.0
    ensures ScaledPoints(assetPf, RatioFor(ratios, c)) == assetPf[..Horizon]
  {
  }

  function MetaOf(d: AssetData, c: Combo): ForecastMeta
    requires d.assetTs != []
  {
    ForecastMeta(d.asset, c.strike, c.expiry, c.optionType, d.assetTs[|d.assetTs| - 1])
  }

  /**
   * The distribution loop of `run_forecasts`: for each combo, in order, its
   * metadata (last asset hour as `last_ts`) and the scaled forecasts.
   */
  method DistributeForecast(d: AssetData, assetPf: seq<real>, assetQ10: Option<seq<real>>, assetQ90: Option<seq<real>>)
      returns (meta: seq<ForecastMeta>, pfs: seq<seq<real>>, q10s: seq<seq<Option<real>>>, q90s: seq<seq<Option<real>>>)
    requires d.assetTs != []
    requires |assetPf| >= Horizon
    requires assetQ10.Some? ==> |assetQ10.value| >= Horizon
    requires assetQ90.Some? ==> |assetQ90.value| >= Horizon
    ensures |meta| == |pfs| == |q10s| == |q90s| == |d.combos|
    ensures forall i :: 0 <= i < |d.combos| ==>
              var ratio := RatioFor(d.ratios, d.combos[i]);
              meta[i] == MetaOf(d, d.combos[i])
              && pfs[i] == ScaledPoints(assetPf, ratio)
              && q10s[i] == ScaledQuantiles(assetQ10, ratio)
              && q90s[i] == ScaledQuantiles(assetQ90, ratio)
  {
    var lastTs := d.assetTs[|d.assetTs| - 1];
    meta, pfs, q10s, q90s := [], [], [], [];
    for i := 0 to |d.combos|
      invariant |meta| == |pfs| == |q10s| == |q90s| == i
      invariant forall j :: 0 <= j < i ==>
                  var ratio := RatioFor(d.ratios, d.combos[j]);
                  meta[j] == MetaOf(d, d.combos[j])
                  && pfs[j] == ScaledPoints(assetPf, ratio)
                  && q10s[j] == ScaledQuantiles(assetQ10, ratio)
                  && q90s[j] == ScaledQuantiles(assetQ90, ratio)
    {
      var combo := d.combos[i];
      var ratio := RatioFor(d.ratios, combo);
      meta := meta + [ForecastMeta(d.asset, combo.strike, combo.expiry, combo.optionType, lastTs)];
      pfs := pfs + [ScaledPoints(assetPf, ratio)];
      q10s := q10s + [ScaledQuantiles(assetQ10, ratio)];
      q90s := q90s + [ScaledQuantiles(assetQ90, ratio)];
    }
  }

  // ---------------------------------------------------------------------------
  // Forecast rows
  // ---------------------------------------------------------------------------

  /** A row of `iv_forecasts`. */
  datatype ForecastRow = ForecastRow(generatedAt: int, asset: string, strike: real, expiry: string, optionType: string,
                                     forecastTs: int, forecastMidIv: real, quantile10: Option<real>,
                                     quantile90: Option<real>, modelVersion: string)

  /** `quantile_lo[i]`, or a column of `None` when there are no quantiles. */
  function QuantileColumn(q: Option<seq<seq<Option<real>>>>, i: nat): (col: seq<Option<real>>)
    requires q.Some? ==> i < |q.value|
    ensures q.None? ==> |col| == Horizon && forall h :: 0 <= h < Horizon ==> col[h].None?
  {
    if q.Some? then q.value[i] else seq(Horizon, _ => None)
  }

  /** `max(0.0, x) if x is not None else None` */
  function ClampOpt(x: Option<real>): (r: Option<real>)
    ensures r.Some? <==> x.Some?
    ensures r.Some? ==> r.value >= 0.0 && r.value >= x.value
  {
    if x.Some? then Some(Max(0.0, x.value)) else None
  }

  /** Whether the forecast columns are long enough for the first `n` metas. */
  ghost predicate Shaped(n: nat, pfs: seq<seq<real>>, lo: Option<seq<seq<Option<real>>>>, hi: Option<seq<seq<Option<real>>>>) {
    n <= |pfs| && (forall i :: 0 <= i < n ==> |pfs[i]| >= Horizon)
    && (lo.Some? ==> n <= |lo.value| && forall i :: 0 <= i < n ==> |lo.value[i]| >= Horizon)
    && (hi.Some? ==> n <= |hi.value| && forall i :: 0 <= i < n ==> |hi.value[i]| >= Horizon)
  }

  /** The row for hour `h` (0-based) of meta `i`. */
  function RowAt(meta: seq<ForecastMeta>, pfs: seq<seq<real>>, lo: Option<seq<seq<Option<real>>>>,
                 hi: Option<seq<seq<Option<real>>>>, generatedAt: int, version: string, i: nat, h: nat): ForecastRow
    requires i < |meta| && Shaped(|meta|, pfs, lo, hi) && h < Horizon
  {
    var m := meta[i];
    ForecastRow(generatedAt, m.asset, m.strike, m.expiry, m.optionType,
                m.lastTs + (h + 1) * MicrosPerHour, Max(0.0, pfs[i][h]),
                ClampOpt(QuantileColumn(lo, i)[h]), ClampOpt(QuantileColumn(hi, i)[h]), version)
  }

  /** The rows written for the first `n` metas, meta by meta and hour by hour. */
  function ForecastRows(meta: seq<ForecastMeta>, pfs: seq<seq<real>>, lo: Option<seq<seq<Option<real>>>>,
                        hi: Option<seq<seq<Option<real>>>>, generatedAt: int, version: string, n: nat): (rows: seq<ForecastRow>)
    requires n <= |meta| && Shaped(|meta|, pfs, lo, hi)
    ensures |rows| == n * Horizon
    decreases n
  {
    if n == 0 then []
    else
      ForecastRows(meta, pfs, lo, hi, generatedAt, version, n - 1)
        + seq(Horizon, h requires 0 <= h < Horizon => RowAt(meta, pfs, lo, hi, generatedAt, version, n - 1, h))
  }

  /**
   * Row `i * Horizon + h` is hour `h + 1` after meta `i`'s last hour, has a
   * non-negative forecast that is at least the model's, and keeps a
   * quantile exactly when the model gave one, clamped the same way.
   */
  lemma {:induction false} ForecastRowFacts(meta: seq<ForecastMeta>, pfs: seq<seq<real>>, lo: Option<seq<seq<Option<real>>>>,
                                            hi: Option<seq<seq<Option<real>>>>, generatedAt: int, version: string,
                                            n: nat, i: nat, h: nat)
    requires n <= |meta| && Shaped(|meta|, pfs, lo, hi) && i < n && h < Horizon
    ensures var r := ForecastRows(meta, pfs, lo, hi, generatedAt, version, n)[i * Horizon + h];
            r.generatedAt == generatedAt && r.modelVersion == version
            && r.asset == meta[i].asset && r.strike == meta[i].strike && r.expiry == meta[i].expiry
            && r.forecastTs == meta[i].lastTs + (h + 1) * MicrosPerHour
            && r.forecastMidIv >= 0.0 && r.forecastMidIv >= pfs[i][h]
            && (pfs[i][h] >= 0.0 ==> r.forecastMidIv == pfs[i][h])
            && (r.quantile10.Some? <==> QuantileColumn(lo, i)[h].Some?)
            && (r.quantile90.Some? <==> QuantileColumn(hi, i)[h].Some?)
            && (r.quantile10.Some? ==> r.quantile10.value >= 0.0)
            && (r.quantile90.Some? ==> r.quantile90.value >= 0.0)
    decreases n
  {
    var prefix := ForecastRows(meta, pfs, lo, hi, generatedAt, version, n - 1);
    if i < n - 1 {
      assert i * Horizon + h < (n - 1) * Horizon by {
        assert (i + 1) * Horizon <= (n - 1) * Horizon;
      }
      ForecastRowFacts(meta, pfs, lo, hi, generatedAt, version, n - 1, i, h);
    } else {
      assert i * Horizon + h == |prefix| + h;
    }
  }

  /** The rows of one meta, hour by hour. */
  method MetaRows(meta: seq<ForecastMeta>, pfs: seq<seq<real>>, lo: Option<seq<seq<Option<real>>>>,
                  hi: Option<seq<seq<Option<real>>>>, generatedAt: int, version: string, i: nat)
      returns (block: seq<ForecastRow>)
    requires i < |meta| && Shaped(|meta|, pfs, lo, hi)
    ensures block == seq(Horizon, h requires 0 <= h < Horizon => RowAt(meta, pfs, lo, hi, generatedAt, version, i, h))
  {
    var m := meta[i];
    var q10 := QuantileColumn(lo, i);
    var q90 := QuantileColumn(hi, i);
    block := [];
    for h := 0 to Horizon
      invariant |block| == h
      invariant forall k :: 0 <= k < h ==> block[k] == RowAt(meta, pfs, lo, hi, generatedAt, version, i, k)
    {
      var forecastTs := m.lastTs + (h + 1) * MicrosPerHour;
      var midIv := Max(0.0, pfs[i][h]);
      var low := if q10[h].Some? then Some(Max(0.0, q10[h].value)) else None;
      var high := if q90[h].Some? then Some(Max(0.0, q90[h].value)) else None;
      block := block + [ForecastRow(generatedAt, m.asset, m.strike, m.expiry, m.optionType,
                                    forecastTs, midIv, low, high, version)];
    }
  }

  /**
   * `store_forecasts`: the rows inserted, all stamped with the one
   * `generated_at`, and their count, `Horizon` per meta.
   */
  method StoreForecasts(meta: seq<ForecastMeta>, pfs: seq<seq<real>>, lo: Option<seq<seq<Option<real>>>>,
                        hi: Option<seq<seq<Option<real>>>>, generatedAt: int, version: string)
      returns (rows: seq<ForecastRow>, totalRows: nat)
    requires Shaped(|meta|, pfs, lo, hi)
    ensures rows == ForecastRows(meta, pfs, lo, hi, generatedAt, version, |meta|)
    ensures totalRows == |rows| == |meta| * Horizon
  {
    rows, totalRows := [], 0;
    for i := 0 to |meta|
      invariant rows == ForecastRows(meta, pfs, lo, hi, generatedAt, version, i)
      invariant totalRows == |rows|
    {
      var block := MetaRows(meta, pfs, lo, hi, generatedAt, version, i);
      rows := rows + block;
      totalRows := totalRows + |block|;
    }
  }
}
