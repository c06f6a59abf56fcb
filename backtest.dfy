/**
 * The sigma-root-T backtester: expiry parsing, days to expiry, sigma * sqrt(T),
 * grouping the history per option, prefix-only percentile ranks, the
 * threshold strategies and their evaluation.
 *
 * A record's timestamp arrives already parsed (`parse_timestamp` is a
 * library call), and the square root is a parameter.
 */
module Backtest {
  import opened Wrappers
  import opened Strings
  import opened Calendar
  import opened Sorting
  import opened Grouping
  import opened Filtering
  import opened Stats

  /** `x ** 0.5` for the non-negative year fractions it is applied to. */
  type SquareRoot = real -> real

  // ---------------------------------------------------------------------------
  // Expiry text, days to expiry and sigma * sqrt(T)
  // ---------------------------------------------------------------------------

  /**
   * `parse_expiry`: `int(s[:2])` is the day, `s[2:5]` upper-cased names the
   * month, `2000 + int(s[5:7])` is the year. Any failure, including a date
   * `datetime` rejects, gives None.
   */
  function ParseExpiry(expiry: string): (d: Option<Date>)
    ensures d.Some? ==> ValidDate(d.value)
    ensures d.Some? ==> ParseInt(Slice(expiry, 0, 2)) == Some(d.value.day)
    ensures d.Some? ==> MonthFromAbbrev(Upper(Slice(expiry, 2, 5))) == Some(d.value.month)
    ensures d.Some? ==> ParseInt(Slice(expiry, 5, 7)) == Some(d.value.year - 2000)
  {
    var day := ParseInt(Slice(expiry, 0, 2));
    var month := MonthFromAbbrev(Upper(Slice(expiry, 2, 5)));
    var year := ParseInt(Slice(expiry, 5, 7));
    if day.None? || month.None? || year.None? then None
    else
      var d := Date(2000 + year.value, month.value, day.value);
      if ValidDate(d) then Some(d) else None
  }

  function Digit(n: int): (c: char)
    requires 0 <= n <= 9
    ensures IsDigit(c) && DigitValue(c) == n
  {
    ('0' as int + n) as char
  }

  function MonthAbbrev(m: int): (s: string)
    requires 1 <= m <= 12
    ensures |s| == 3 && MonthFromAbbrev(s) == Some(m)
    ensures forall i :: 0 <= i < |s| ==> IsAsciiUpper(s[i])
  {
    ["JAN", "FEB", "MAR", "APR", "MAY", "JUN", "JUL", "AUG", "SEP", "OCT", "NOV", "DEC"][m - 1]
  }

  /** A number below 100 in two decimal digits, with a leading zero. */
  function TwoDigits(n: int): (s: string)
    requires 0 <= n <= 99
    ensures |s| == 2
  {
    [Digit(n / 10), Digit(n % 10)]
  }

  lemma ParseTwoDigitsOf(n: int)
    requires 0 <= n <= 99
    ensures ParseInt(TwoDigits(n)) == Some(n)
  {
    ParseTwoDigits(TwoDigits(n));
  }

  /** How the exchange writes an expiry of this century: two-digit day, month abbreviation, two-digit year ("13FEB26"). */
  function FormatExpiry(d: Date): (s: string)
    requires ValidDate(d) && 2000 <= d.year <= 2099
    ensures |s| == 7
  {
    TwoDigits(d.day) + MonthAbbrev(d.month) + TwoDigits(d.year - 2000)
  }

  /** The three slices `parse_expiry` reads from a formatted expiry. */
  lemma FormatExpirySlices(d: Date)
    requires ValidDate(d) && 2000 <= d.year <= 2099
    ensures ParseInt(Slice(FormatExpiry(d), 0, 2)) == Some(d.day)
    ensures MonthFromAbbrev(Upper(Slice(FormatExpiry(d), 2, 5))) == Some(d.month)
    ensures ParseInt(Slice(FormatExpiry(d), 5, 7)) == Some(d.year - 2000)
  {
    DaySlice(d);
    MonthSlice(d);
    YearSlice(d);
  }

  lemma DaySlice(d: Date)
    requires ValidDate(d) && 2000 <= d.year <= 2099
    ensures ParseInt(Slice(FormatExpiry(d), 0, 2)) == Some(d.day)
  {
    var dd := TwoDigits(d.day);
    SlicesOfExpiry(dd, MonthAbbrev(d.month), TwoDigits(d.year - 2000));
    ParseTwoDigitsOf(d.day);
  }

  lemma MonthSlice(d: Date)
    requires ValidDate(d) && 2000 <= d.year <= 2099
    ensures MonthFromAbbrev(Upper(Slice(FormatExpiry(d), 2, 5))) == Some(d.month)
  {
    var mmm := MonthAbbrev(d.month);
    SlicesOfExpiry(TwoDigits(d.day), mmm, TwoDigits(d.year - 2000));
    UpperOfUpper(mmm);
  }

  lemma YearSlice(d: Date)
    requires ValidDate(d) && 2000 <= d.year <= 2099
    ensures ParseInt(Slice(FormatExpiry(d), 5, 7)) == Some(d.year - 2000)
  {
    var y := d.year - 2000;
    var yy := TwoDigits(y);
    SlicesOfExpiry(TwoDigits(d.day), MonthAbbrev(d.month), yy);
    assert Slice(FormatExpiry(d), 5, 7) == yy;
    ParseTwoDigitsOf(y);
  }

  /** Slicing a seven-character expiry at 2 and 5 gives back its three parts. */
  lemma SlicesOfExpiry(dd: string, mmm: string, yy: string)
    requires |dd| == 2 && |mmm| == 3 && |yy| == 2
    ensures Slice(dd + mmm + yy, 0, 2) == dd
    ensures Slice(dd + mmm + yy, 2, 5) == mmm
    ensures Slice(dd + mmm + yy, 5, 7) == yy
  {
    var s := dd + mmm + yy;
    assert s[0..2] == dd;
    assert s[2..5] == mmm;
    assert s[5..7] == yy;
  }

  /** Parsing undoes formatting: every expiry of this century is read back as the same date. */
  lemma ParseFormatExpiry(d: Date)
    requires ValidDate(d) && 2000 <= d.year <= 2099
    ensures ParseExpiry(FormatExpiry(d)) == Some(d)
  {
    FormatExpirySlices(d);
    ParseExpiryOfSlices(FormatExpiry(d), d);
  }

  /** Text whose three slices read as the fields of a valid date parses as that date. */
  lemma ParseExpiryOfSlices(s: string, d: Date)
    requires ValidDate(d)
    requires ParseInt(Slice(s, 0, 2)) == Some(d.day)
    requires MonthFromAbbrev(Upper(Slice(s, 2, 5))) == Some(d.month)
    requires ParseInt(Slice(s, 5, 7)) == Some(d.year - 2000)
    ensures ParseExpiry(s) == Some(d)
  {
    var day, month, year := Some(d.day), Some(d.month), Some(d.year - 2000);
    assert Date(2000 + year.value, month.value, day.value) == d;
  }

  /** A one-digit day ("6FEB26") puts a letter into the day slice, so the expiry does not parse. */
  lemma ParseExpiryNeedsTwoDigitDay(expiry: string)
    requires |expiry| >= 2 && IsAsciiUpper(expiry[1])
    ensures ParseExpiry(expiry).None?
  {
    var dd := Slice(expiry, 0, 2);
    assert dd[1] == expiry[1];
    ParseIntRejectsLetter(dd, 1);
  }

  /**
   * `calc_dte`: whole days from the timestamp to the expiry's midnight,
   * never negative; None when the expiry or the timestamp does not parse.
   */
  function CalcDte(expiry: string, timestamp: Option<int>): (dte: Option<int>)
    ensures dte.None? <==> ParseExpiry(expiry).None? || timestamp.None?
    ensures dte.Some? ==> dte.value >= 0
    ensures dte.Some? ==> (dte.value > 0 <==> Midnight(ParseExpiry(expiry).value) - timestamp.value >= MicrosPerDay)
  {
    match ParseExpiry(expiry)
    case None => None
    case Some(d) =>
      match timestamp
      case None => None
      case Some(ts) => Some(MaxInt(0, WholeDays(Midnight(d) - ts)))
  }

  /** `calc_sigma_root_t`: `iv * (dte / 365) ** 0.5`, or None without a positive DTE and an IV. */
  function CalcSigmaRootT(iv: Option<real>, dte: Option<int>, sqrt: SquareRoot): (srt: Option<real>)
    ensures srt.None? <==> dte.None? || dte.value <= 0 || iv.None?
  {
    if dte.None? || dte.value <= 0 || iv.None? then None
    else Some(iv.value * sqrt(dte.value as real / 365.0))
  }

  // ---------------------------------------------------------------------------
  // Grouping the history per option
  // ---------------------------------------------------------------------------

  /**
   * One row of `/api/iv/<asset>`: `rawTimestamp` is the text the API sends
   * and `timestamp` its parsed value, when it parses.
   */
  datatype HistoryRecord = HistoryRecord(
    asset: string, strike: real, expiry: string,
    rawTimestamp: string, timestamp: Option<int>,
    midIv: Option<real>, apy: Option<real>)

  /** The option a row belongs to: the `asset-strike-expiry` key. */
  datatype OptionKey = OptionKey(asset: string, strike: real, expiry: string)

  function KeyOf(r: HistoryRecord): OptionKey {
    OptionKey(r.asset, r.strike, r.expiry)
  }

  /**
   * A prepared observation. The two percentiles are absent until
   * `calculate_percentiles` writes them.
   */
  datatype Point = Point(
    timestamp: int, iv: real, dte: int, srt: real, apy: Option<real>,
    asset: string, strike: real, expiry: string,
    srtPercentile: Option<real>, ivPercentile: Option<real>)

  /** The observation a row yields: one that has sigma * sqrt(T), a parsed timestamp and a positive DTE. */
  function PointOf(r: HistoryRecord, sqrt: SquareRoot): (p: Option<Point>)
    ensures p.Some? <==> CalcSigmaRootT(r.midIv, CalcDte(r.expiry, r.timestamp), sqrt).Some?
    ensures p.Some? ==> p.value.dte > 0 && Some(p.value.dte) == CalcDte(r.expiry, r.timestamp)
    ensures p.Some? ==> Some(p.value.iv) == r.midIv && Some(p.value.timestamp) == r.timestamp
    ensures p.Some? ==> p.value.srtPercentile.None? && p.value.ivPercentile.None?
  {
    var dte := CalcDte(r.expiry, r.timestamp);
    var srt := CalcSigmaRootT(r.midIv, dte, sqrt);
    if srt.Some? && r.timestamp.Some? && dte.Some? && dte.value > 0 then
      Some(Point(r.timestamp.value, r.midIv.value, dte.value, srt.value, r.apy,
                 r.asset, r.strike, r.expiry, None, None))
    else None
  }

  /** The (key, observation) pairs the grouping loop appends, in row order. */
  function PointItems(rows: seq<HistoryRecord>, sqrt: SquareRoot): (items: seq<(OptionKey, Point)>)
    ensures |items| <= |rows|
    decreases |rows|
  {
    if rows == [] then []
    else
      var r := rows[|rows| - 1];
      var p := PointOf(r, sqrt);
      PointItems(rows[..|rows| - 1], sqrt) + (if p.Some? then [(KeyOf(r), p.value)] else [])
  }

  /** Every appended observation has a positive DTE and no percentile yet. */
  lemma {:induction false} PointItemsFresh(rows: seq<HistoryRecord>, sqrt: SquareRoot, n: int)
    requires 0 <= n < |PointItems(rows, sqrt)|
    ensures PointItems(rows, sqrt)[n].1.dte > 0
    ensures PointItems(rows, sqrt)[n].1.srtPercentile.None? && PointItems(rows, sqrt)[n].1.ivPercentile.None?
    decreases |rows|
  {
    var init := PointItems(rows[..|rows| - 1], sqrt);
    if n < |init| {
      PointItemsFresh(rows[..|rows| - 1], sqrt, n);
    }
  }

  lemma PointItemsSnoc(rows: seq<HistoryRecord>, sqrt: SquareRoot, n: int)
    requires 0 <= n < |rows|
    ensures var p := PointOf(rows[n], sqrt);
            PointItems(rows[..n + 1], sqrt)
            == PointItems(rows[..n], sqrt) + (if p.Some? then [(KeyOf(rows[n]), p.value)] else [])
  {
    assert rows[..n + 1][..n] == rows[..n];
  }

  predicate TimestampLe(a: Point, b: Point) {
    a.timestamp <= b.timestamp
  }

  lemma TimestampLeIsTotalPreorder()
    ensures TotalPreorder(TimestampLe)
  {
  }

  function SortGroup(g: Group<OptionKey, Point>): Group<OptionKey, Point> {
    Group(g.key, SortBy(g.values, TimestampLe))
  }

  /** `options[key] = sorted(options[key], key=lambda x: x['timestamp'])` for every key. */
  function SortGroups(gs: seq<Group<OptionKey, Point>>): (r: seq<Group<OptionKey, Point>>)
    ensures |r| == |gs|
  {
    seq(|gs|, i requires 0 <= i < |gs| => SortGroup(gs[i]))
  }

  predicate HasEnoughPoints(g: Group<OptionKey, Point>) {
    |g.values| >= 20
  }

  /** What `prepare_options_data` returns. */
  function PreparedOptions(rows: seq<HistoryRecord>, sqrt: SquareRoot): seq<Group<OptionKey, Point>> {
    Filter(SortGroups(GroupItems(PointItems(rows, sqrt))), HasEnoughPoints)
  }

  /**
   * Every prepared option holds at least 20 observations, all with a
   * positive DTE, in timestamp order, and they are exactly the rows'
   * observations of that option.
   */
  lemma PreparedOptionsShape(rows: seq<HistoryRecord>, sqrt: SquareRoot, g: Group<OptionKey, Point>)
    requires g in PreparedOptions(rows, sqrt)
    ensures |g.values| >= 20
    ensures SortedBy(g.values, TimestampLe)
    ensures forall p :: p in g.values ==> p.dte > 0 && p.srtPercentile.None?
    ensures multiset(g.values) == multiset(ValuesFor(PointItems(rows, sqrt), g.key))
  {
    var items := PointItems(rows, sqrt);
    var grouped := GroupItems(items);
    var sorted := SortGroups(grouped);
    assert g in sorted && HasEnoughPoints(g);
    var i :| 0 <= i < |sorted| && sorted[i] == g;
    GroupValues(items, i);
    TimestampLeIsTotalPreorder();
    SortBySorted(grouped[i].values, TimestampLe);
    forall p | p in g.values
      ensures p.dte > 0 && p.srtPercentile.None?
    {
      SortByMembers(grouped[i].values, TimestampLe, p);
      ValuesForMember(items, g.key, p);
      var n :| 0 <= n < |items| && items[n] == (g.key, p);
      PointItemsFresh(rows, sqrt, n);
    }
  }

  /** The defaultdict loop of `prepare_options_data`. */
  method GroupPoints(rows: seq<HistoryRecord>, sqrt: SquareRoot) returns (gs: seq<Group<OptionKey, Point>>)
    ensures gs == GroupItems(PointItems(rows, sqrt))
  {
    gs := [];
    for n := 0 to |rows|
      invariant gs == GroupItems(PointItems(rows[..n], sqrt))
    {
      var row := rows[n];
      var p := PointOf(row, sqrt);
      PointItemsSnoc(rows, sqrt, n);
      if p.Some? {
        GroupItemsSnoc(PointItems(rows[..n], sqrt), KeyOf(row), p.value);
        gs := Append(gs, KeyOf(row), p.value);
      } else {
        assert PointItems(rows[..n], sqrt) + [] == PointItems(rows[..n], sqrt);
      }
    }
    assert rows[..|rows|] == rows;
  }

  /** Sorting each option's observations by timestamp. */
  method SortEachGroup(grouped: seq<Group<OptionKey, Point>>) returns (gs: seq<Group<OptionKey, Point>>)
    ensures gs == SortGroups(grouped)
  {
    gs := grouped;
    for j := 0 to |gs|
      invariant |gs| == |grouped|
      invariant forall m :: 0 <= m < j ==> gs[m] == SortGroup(grouped[m])
      invariant forall m :: j <= m < |gs| ==> gs[m] == grouped[m]
    {
      gs := gs[j := Group(gs[j].key, SortBy(gs[j].values, TimestampLe))];
    }
  }

  /** `prepare_options_data`: grouping, the per-key sort, then the size filter. */
  method PrepareOptionsData(rows: seq<HistoryRecord>, sqrt: SquareRoot) returns (options: seq<Group<OptionKey, Point>>)
    ensures options == PreparedOptions(rows, sqrt)
  {
    var grouped := GroupPoints(rows, sqrt);
    var sorted := SortEachGroup(grouped);
    options := Filter(sorted, HasEnoughPoints);
  }

  // ---------------------------------------------------------------------------
  // Prefix-only percentile ranks
  // ---------------------------------------------------------------------------

  /**
   * The sigma-root-T column of the backtester's points. The analysis script
   * has its own observations, a different record type, and its own SrtsOf.
   */
  function Srts(points: seq<Point>): (vals: seq<real>)
    ensures |vals| == |points| && forall i :: 0 <= i < |points| ==> vals[i] == points[i].srt
  {
    seq(|points|, i requires 0 <= i < |points| => points[i].srt)
  }

  function Ivs(points: seq<Point>): (vals: seq<real>)
    ensures |vals| == |points| && forall i :: 0 <= i < |points| ==> vals[i] == points[i].iv
  {
    seq(|points|, i requires 0 <= i < |points| => points[i].iv)
  }

  /**
   * The rank of value `i` among values `0..i` (itself included) when there
   * are at least five of them; 50 before that.
   */
  function PrefixRank(vals: seq<real>, i: nat): (pct: real)
    requires i < |vals|
    ensures 0.0 <= pct < 100.0
    ensures i < 4 ==> pct == 50.0
  {
    if i + 1 >= 5 then
      assert vals[i] in vals[..i + 1];
      PercentBelow(vals[..i + 1], vals[i])
    else 50.0
  }

  /** A rank looks only at the past: lists that agree up to `i` rank point `i` alike. */
  lemma PrefixRankIgnoresFuture(a: seq<real>, b: seq<real>, i: nat)
    requires i < |a| && i < |b| && a[..i + 1] == b[..i + 1]
    ensures PrefixRank(a, i) == PrefixRank(b, i)
  {
    assert a[i] == a[..i + 1][i] == b[..i + 1][i] == b[i];
  }

  /** The observations with both percentiles written. */
  function Ranked(points: seq<Point>): (r: seq<Point>)
    ensures |r| == |points|
  {
    seq(|points|, i requires 0 <= i < |points| =>
      points[i].(srtPercentile := Some(PrefixRank(Srts(points), i)),
                 ivPercentile := Some(PrefixRank(Ivs(points), i))))
  }

  /** Ranking writes the two percentiles and nothing else, both within [0, 100). */
  lemma RankedFields(points: seq<Point>, i: nat)
    requires i < |points|
    ensures var p := Ranked(points)[i];
            p.(srtPercentile := None, ivPercentile := None) == points[i].(srtPercentile := None, ivPercentile := None)
            && p.srtPercentile.Some? && 0.0 <= p.srtPercentile.value < 100.0
            && p.ivPercentile.Some? && 0.0 <= p.ivPercentile.value < 100.0
  {
  }

  /** One percentile as the loop body computes it: sort the history, count what lies below. */
  method PrefixPercentile(values: seq<real>, i: nat) returns (pct: real)
    requires i < |values|
    ensures pct == PrefixRank(values, i)
  {
    var historical := values[..i + 1];
    if |historical| >= 5 {
      var sortedHist := SortBy(historical, RealLe);
      var below := CountBelow(sortedHist, values[i]);
      CountBelowPermutation(sortedHist, historical, values[i]);
      pct := below as real / |sortedHist| as real * 100.0;
    } else {
      pct := 50.0;
    }
  }

  /** The loop of `calculate_percentiles` over one option's observations, writing each in place. */
  method RankPoints(points: array<Point>)
    modifies points
    ensures points[..] == Ranked(old(points[..]))
  {
    ghost var original := points[..];
    var srtValues := Srts(points[..]);
    var ivValues := Ivs(points[..]);
    for i := 0 to points.Length
      invariant forall j :: 0 <= j < i ==> points[j] == Ranked(original)[j]
      invariant forall j :: i <= j < points.Length ==> points[j] == original[j]
    {
      var srtPct := PrefixPercentile(srtValues, i);
      var ivPct := PrefixPercentile(ivValues, i);
      points[i] := points[i].(srtPercentile := Some(srtPct), ivPercentile := Some(ivPct));
    }
  }

  /** `calculate_percentiles`: every option's list of observations, each a list of its own. */
  method CalculatePercentiles(tables: seq<array<Point>>)
    requires forall i, j :: 0 <= i < j < |tables| ==> tables[i] != tables[j]
    modifies set t | t in tables
    ensures forall k :: 0 <= k < |tables| ==> tables[k][..] == Ranked(old(tables[k][..]))
  {
    for k := 0 to |tables|
      invariant forall m :: 0 <= m < k ==> tables[m][..] == Ranked(old(tables[m][..]))
      invariant forall m :: k <= m < |tables| ==> tables[m][..] == old(tables[m][..])
    {
      RankPoints(tables[k]);
    }
  }

  // ---------------------------------------------------------------------------
  // Strategies
  // ---------------------------------------------------------------------------

  datatype Signal = Buy | Sell

  /**
   * A signalled trade: its option, what triggered it (the entry percentile,
   * or for momentum the past change), the signed change in the predicted
   * direction, that change in percent of the entry value, and whether it
   * went the predicted way.
   */
  datatype Trade = Trade(signal: Signal, option: OptionKey, trigger: real, change: real, changePct: real, success: bool)

  /** Which series a mean-reversion strategy reads: sigma * sqrt(T) or the IV itself. */
  datatype Measure = Srt | Iv

  function ValueOf(p: Point, m: Measure): real {
    if m == Srt then p.srt else p.iv
  }

  /** `point.get('srt_percentile', 50)` (or the IV percentile). */
  function PercentileOf(p: Point, m: Measure): real {
    (if m == Srt then p.srtPercentile else p.ivPercentile).GetOr(50.0)
  }

  /** `delta / base * 100 if base > 0 else 0` */
  function ChangePct(delta: real, base: real): real {
    if base > 0.0 then delta / base * 100.0 else 0.0
  }

  /** How many entry points a scan holding `hold` observations has: `range(len(points) - hold)`. */
  function ScanLength(n: nat, hold: nat): nat {
    if n > hold then n - hold else 0
  }

  function AsSeq<T>(o: Option<T>): (s: seq<T>)
    ensures o.Some? ==> s == [o.value]
    ensures o.None? ==> s == []
  {
    if o.Some? then [o.value] else []
  }

  /**
   * The mean-reversion decision at one entry: BUY below the low threshold,
   * otherwise SELL above the high one, succeeding when the value then moved
   * the predicted way.
   */
  function ReversionSignal(key: OptionKey, point: Point, future: Point, m: Measure, low: real, high: real): (t: Option<Trade>)
    ensures var pct := PercentileOf(point, m);
            (t.Some? <==> pct < low || pct > high)
            && (t.Some? ==> (t.value.signal == Buy <==> pct < low) && t.value.trigger == pct && t.value.option == key)
            && (t.Some? && t.value.signal == Buy ==> t.value.change == ValueOf(future, m) - ValueOf(point, m))
            && (t.Some? && t.value.signal == Sell ==> t.value.change == ValueOf(point, m) - ValueOf(future, m))
            && (t.Some? ==> (t.value.success <==> t.value.change > 0.0))
  {
    var pct := PercentileOf(point, m);
    var now, later := ValueOf(point, m), ValueOf(future, m);
    if pct < low then
      var change := later - now;
      Some(Trade(Buy, key, pct, change, ChangePct(change, now), change > 0.0))
    else if pct > high then
      var change := now - later;
      Some(Trade(Sell, key, pct, change, ChangePct(change, now), change > 0.0))
    else None
  }

  /** The trades of the first `n` entries of one option. */
  function ReversionTrades(key: OptionKey, points: seq<Point>, m: Measure, low: real, high: real, hold: nat, n: nat): (ts: seq<Trade>)
    requires n == 0 || n + hold <= |points|
    decreases n
  {
    if n == 0 then []
    else
      ReversionTrades(key, points, m, low, high, hold, n - 1)
      + AsSeq(ReversionSignal(key, points[n - 1], points[n - 1 + hold], m, low, high))
  }

  /** `strategy_mean_reversion_srt` (with `Srt`) and `strategy_mean_reversion_iv` (with `Iv`). */
  function AllReversionTrades(options: seq<Group<OptionKey, Point>>, m: Measure, low: real, high: real, hold: nat): seq<Trade>
    decreases |options|
  {
    if options == [] then []
    else
      var g := options[|options| - 1];
      AllReversionTrades(options[..|options| - 1], m, low, high, hold)
      + ReversionTrades(g.key, g.values, m, low, high, hold, ScanLength(|g.values|, hold))
  }

  /** The number of entries a scan of every option looks at. */
  function TotalEntries(options: seq<Group<OptionKey, Point>>, hold: nat): nat
    decreases |options|
  {
    if options == [] then 0
    else TotalEntries(options[..|options| - 1], hold) + ScanLength(|options[|options| - 1].values|, hold)
  }

  /** What makes a mean-reversion trade: its side matches its trigger, and success is a positive signed change. */
  predicate ReversionTradeOk(t: Trade, low: real, high: real) {
    (t.signal == Buy <==> t.trigger < low)
    && (t.signal == Sell ==> t.trigger > high)
    && (t.success <==> t.change > 0.0)
  }

  lemma {:induction false} ReversionTradesFacts(key: OptionKey, points: seq<Point>, m: Measure, low: real, high: real, hold: nat, n: nat)
    requires n == 0 || n + hold <= |points|
    ensures |ReversionTrades(key, points, m, low, high, hold, n)| <= n
    ensures forall t :: t in ReversionTrades(key, points, m, low, high, hold, n) ==> ReversionTradeOk(t, low, high) && t.option == key
    decreases n
  {
    if n > 0 {
      ReversionTradesFacts(key, points, m, low, high, hold, n - 1);
    }
  }

  /**
   * Across all options: at most one trade per entry point, and every trade
   * is a BUY exactly when its percentile was under the low threshold, a SELL
   * otherwise with the percentile over the high one, and a success exactly
   * when the signed change is positive.
   */
  lemma {:induction false} AllReversionTradesFacts(options: seq<Group<OptionKey, Point>>, m: Measure, low: real, high: real, hold: nat)
    ensures |AllReversionTrades(options, m, low, high, hold)| <= TotalEntries(options, hold)
    ensures forall t :: t in AllReversionTrades(options, m, low, high, hold) ==> ReversionTradeOk(t, low, high)
    decreases |options|
  {
    if options != [] {
      var g := options[|options| - 1];
      AllReversionTradesFacts(options[..|options| - 1], m, low, high, hold);
      ReversionTradesFacts(g.key, g.values, m, low, high, hold, ScanLength(|g.values|, hold));
    }
  }

  /** The scan of one option. */
  method ReversionScan(key: OptionKey, points: seq<Point>, m: Measure, low: real, high: real, hold: nat)
    returns (trades: seq<Trade>)
    ensures trades == ReversionTrades(key, points, m, low, high, hold, ScanLength(|points|, hold))
  {
    trades := [];
    for i := 0 to ScanLength(|points|, hold)
      invariant trades == ReversionTrades(key, points, m, low, high, hold, i)
    {
      var point := points[i];
      var future := points[i + hold];
      assert ReversionTrades(key, points, m, low, high, hold, i + 1)
             == trades + AsSeq(ReversionSignal(key, point, future, m, low, high));
      var pct := PercentileOf(point, m);
      var now, later := ValueOf(point, m), ValueOf(future, m);
      if pct < low {
        var change := later - now;
        var t := Trade(Buy, key, pct, change, ChangePct(change, now), change > 0.0);
        assert ReversionSignal(key, point, future, m, low, high) == Some(t);
        trades := trades + [t];
      } else if pct > high {
        var change := now - later;
        var t := Trade(Sell, key, pct, change, ChangePct(change, now), change > 0.0);
        assert ReversionSignal(key, point, future, m, low, high) == Some(t);
        trades := trades + [t];
      } else {
        assert ReversionSignal(key, point, future, m, low, high) == None;
        assert trades + [] == trades;
      }
    }
  }

  /** `strategy_mean_reversion_srt` / `strategy_mean_reversion_iv`. */
  method StrategyMeanReversion(options: seq<Group<OptionKey, Point>>, m: Measure, low: real, high: real, hold: nat)
    returns (trades: seq<Trade>)
    ensures trades == AllReversionTrades(options, m, low, high, hold)
  {
    trades := [];
    for k := 0 to |options|
      invariant trades == AllReversionTrades(options[..k], m, low, high, hold)
    {
      var more := ReversionScan(options[k].key, options[k].values, m, low, high, hold);
      assert options[..k + 1][..k] == options[..k];
      trades := trades + more;
    }
    assert options[..|options|] == options;
  }

  /**
   * The momentum decision at one entry: the change since `lookback`
   * observations ago, in percent; BUY above 2, otherwise SELL below -2,
   * succeeding when the change over the holding period went the same way.
   */
  function MomentumSignal(key: OptionKey, past: Point, point: Point, future: Point): (t: Option<Trade>)
    ensures var pastChange := ChangePct(point.srt - past.srt, past.srt);
            (t.Some? <==> pastChange > 2.0 || pastChange < -2.0)
            && (t.Some? ==> (t.value.signal == Buy <==> pastChange > 2.0) && t.value.trigger == pastChange && t.value.option == key)
            && (t.Some? && t.value.signal == Buy ==> t.value.changePct == ChangePct(future.srt - point.srt, point.srt))
            && (t.Some? && t.value.signal == Sell ==> t.value.changePct == ChangePct(point.srt - future.srt, point.srt))
            && (t.Some? ==> (t.value.success <==> t.value.changePct > 0.0))
  {
    var pastChange := ChangePct(point.srt - past.srt, past.srt);
    if pastChange > 2.0 then
      var futureChange := ChangePct(future.srt - point.srt, point.srt);
      Some(Trade(Buy, key, pastChange, futureChange, futureChange, futureChange > 0.0))
    else if pastChange < -2.0 then
      var futureChange := ChangePct(point.srt - future.srt, point.srt);
      Some(Trade(Sell, key, pastChange, futureChange, futureChange, futureChange > 0.0))
    else None
  }

  /** The momentum trades of entries `lookback .. n - 1` of one option. */
  function MomentumTrades(key: OptionKey, points: seq<Point>, lookback: nat, hold: nat, n: nat): (ts: seq<Trade>)
    requires n <= lookback || n + hold <= |points|
    decreases n
  {
    if n <= lookback then []
    else
      var i := n - 1;
      MomentumTrades(key, points, lookback, hold, i)
      + AsSeq(MomentumSignal(key, points[i - lookback], points[i], points[i + hold]))
  }

  /** `strategy_momentum_srt` */
  function AllMomentumTrades(options: seq<Group<OptionKey, Point>>, lookback: nat, hold: nat): seq<Trade>
    decreases |options|
  {
    if options == [] then []
    else
      var g := options[|options| - 1];
      AllMomentumTrades(options[..|options| - 1], lookback, hold)
      + MomentumTrades(g.key, g.values, lookback, hold, ScanLength(|g.values|, hold))
  }

  predicate MomentumTradeOk(t: Trade) {
    (t.signal == Buy <==> t.trigger > 2.0)
    && (t.signal == Sell ==> t.trigger < -2.0)
    && (t.success <==> t.changePct > 0.0)
  }

  lemma {:induction false} MomentumTradesFacts(key: OptionKey, points: seq<Point>, lookback: nat, hold: nat, n: nat)
    requires n <= lookback || n + hold <= |points|
    ensures |MomentumTrades(key, points, lookback, hold, n)| <= if n > lookback then n - lookback else 0
    ensures forall t :: t in MomentumTrades(key, points, lookback, hold, n) ==> MomentumTradeOk(t) && t.option == key
    decreases n
  {
    if n > lookback {
      MomentumTradesFacts(key, points, lookback, hold, n - 1);
    }
  }

  /**
   * Across all options: no more momentum trades than entry points, each a
   * BUY exactly when the past change exceeded 2%, a SELL otherwise with the
   * past change under -2%, and a success exactly when the following change
   * went the predicted way.
   */
  lemma {:induction false} AllMomentumTradesFacts(options: seq<Group<OptionKey, Point>>, lookback: nat, hold: nat)
    ensures |AllMomentumTrades(options, lookback, hold)| <= TotalEntries(options, hold)
    ensures forall t :: t in AllMomentumTrades(options, lookback, hold) ==> MomentumTradeOk(t)
    decreases |options|
  {
    if options != [] {
      var g := options[|options| - 1];
      AllMomentumTradesFacts(options[..|options| - 1], lookback, hold);
      MomentumTradesFacts(g.key, g.values, lookback, hold, ScanLength(|g.values|, hold));
    }
  }

  method MomentumScan(key: OptionKey, points: seq<Point>, lookback: nat, hold: nat) returns (trades: seq<Trade>)
    ensures trades == MomentumTrades(key, points, lookback, hold, ScanLength(|points|, hold))
  {
    trades := [];
    var stop := ScanLength(|points|, hold);
    if stop <= lookback {
      return;
    }
    for i := lookback to stop
      invariant trades == MomentumTrades(key, points, lookback, hold, i)
    {
      var point, past, future := points[i], points[i - lookback], points[i + hold];
      assert MomentumTrades(key, points, lookback, hold, i + 1)
             == trades + AsSeq(MomentumSignal(key, past, point, future));
      var pastChange := ChangePct(point.srt - past.srt, past.srt);
      if pastChange > 2.0 {
        var futureChange := ChangePct(future.srt - point.srt, point.srt);
        var t := Trade(Buy, key, pastChange, futureChange, futureChange, futureChange > 0.0);
        assert MomentumSignal(key, past, point, future) == Some(t);
        trades := trades + [t];
      } else if pastChange < -2.0 {
        var futureChange := ChangePct(point.srt - future.srt, point.srt);
        var t := Trade(Sell, key, pastChange, futureChange, futureChange, futureChange > 0.0);
        assert MomentumSignal(key, past, point, future) == Some(t);
        trades := trades + [t];
      } else {
        assert MomentumSignal(key, past, point, future) == None;
        assert trades + [] == trades;
      }
    }
  }

  /** `strategy_momentum_srt` */
  method StrategyMomentum(options: seq<Group<OptionKey, Point>>, lookback: nat, hold: nat) returns (trades: seq<Trade>)
    ensures trades == AllMomentumTrades(options, lookback, hold)
  {
    trades := [];
    for k := 0 to |options|
      invariant trades == AllMomentumTrades(options[..k], lookback, hold)
    {
      var more := MomentumScan(options[k].key, options[k].values, lookback, hold);
      assert options[..k + 1][..k] == options[..k];
      trades := trades + more;
    }
    assert options[..|options|] == options;
  }

  /** A percentile at or beyond a hold-to-expiry threshold. */
  predicate IsExtreme(p: Point, low: real, high: real) {
    PercentileOf(p, Srt) <= low || PercentileOf(p, Srt) >= high
  }

  /** The first entry in `i .. cutoff - 1` with an extreme percentile. */
  function FirstExtreme(points: seq<Point>, low: real, high: real, i: nat, cutoff: nat): (j: Option<nat>)
    requires cutoff <= |points|
    ensures j.Some? ==> i <= j.value < cutoff && IsExtreme(points[j.value], low, high)
    ensures j.Some? ==> forall k :: i <= k < j.value ==> !IsExtreme(points[k], low, high)
    ensures j.None? ==> forall k :: i <= k < cutoff ==> !IsExtreme(points[k], low, high)
    decreases cutoff - i
  {
    if i >= cutoff then None
    else if IsExtreme(points[i], low, high) then Some(i)
    else FirstExtreme(points, low, high, i + 1, cutoff)
  }

  /** The trade from an entry to the option's last observation: BUY at or under `low`, otherwise SELL at or over `high`. */
  function ExpirySignal(key: OptionKey, point: Point, final: Point, low: real, high: real): (t: Trade)
    requires IsExtreme(point, low, high)
    ensures t.option == key && t.trigger == PercentileOf(point, Srt)
    ensures t.signal == Buy <==> PercentileOf(point, Srt) <= low
    ensures t.change == if t.signal == Buy then final.srt - point.srt else point.srt - final.srt
    ensures t.success <==> t.change > 0.0
  {
    var pct := PercentileOf(point, Srt);
    if pct <= low then
      var change := final.srt - point.srt;
      Trade(Buy, key, pct, change, ChangePct(change, point.srt), change > 0.0)
    else
      var change := point.srt - final.srt;
      Trade(Sell, key, pct, change, ChangePct(change, point.srt), change > 0.0)
  }

  /**
   * The one hold-to-expiry trade of an option: none with fewer than 15
   * observations; otherwise the first entry in `5 .. len // 2 - 1` with an
   * extreme percentile, held to the last observation.
   */
  function ExpiryTrade(key: OptionKey, points: seq<Point>, low: real, high: real): (t: Option<Trade>)
    ensures t.Some? ==> |points| >= 15
    ensures t.Some? <==> |points| >= 15 && exists j :: 5 <= j < |points| / 2 && IsExtreme(points[j], low, high)
    ensures t.Some? ==>
              exists j :: (5 <= j < |points| / 2 && IsExtreme(points[j], low, high)
                           && (forall k :: 5 <= k < j ==> !IsExtreme(points[k], low, high))
                           && t.value == ExpirySignal(key, points[j], points[|points| - 1], low, high))
  {
    if |points| < 15 then None
    else
      match FirstExtreme(points, low, high, 5, |points| / 2)
      case None => None
      case Some(j) => Some(ExpirySignal(key, points[j], points[|points| - 1], low, high))
  }

  /** `strategy_mean_reversion_to_expiry` */
  function AllExpiryTrades(options: seq<Group<OptionKey, Point>>, low: real, high: real): seq<Trade>
    decreases |options|
  {
    if options == [] then []
    else
      var g := options[|options| - 1];
      AllExpiryTrades(options[..|options| - 1], low, high) + AsSeq(ExpiryTrade(g.key, g.values, low, high))
  }

  predicate ExpiryTradeOk(t: Trade, low: real, high: real) {
    (t.signal == Buy <==> t.trigger <= low)
    && (t.signal == Sell ==> t.trigger >= high)
    && (t.success <==> t.change > 0.0)
  }

  /** At most one hold-to-expiry trade per option, each on the side its percentile calls for. */
  lemma {:induction false} AllExpiryTradesFacts(options: seq<Group<OptionKey, Point>>, low: real, high: real)
    ensures |AllExpiryTrades(options, low, high)| <= |options|
    ensures forall t :: t in AllExpiryTrades(options, low, high) ==> ExpiryTradeOk(t, low, high)
    decreases |options|
  {
    if options != [] {
      AllExpiryTradesFacts(options[..|options| - 1], low, high);
    }
  }

  /** The scan of one option, stopping at its first signal. */
  method ExpiryScan(key: OptionKey, points: seq<Point>, low: real, high: real) returns (found: seq<Trade>)
    ensures found == AsSeq(ExpiryTrade(key, points, low, high))
  {
    found := [];
    if |points| < 15 {
      return;
    }
    var cutoff := |points| / 2;
    var i := 5;
    while i < cutoff
      invariant 5 <= i <= cutoff
      invariant FirstExtreme(points, low, high, 5, cutoff) == FirstExtreme(points, low, high, i, cutoff)
      invariant found == []
    {
      var point, final := points[i], points[|points| - 1];
      var pct := PercentileOf(point, Srt);
      if pct <= low {
        var change := final.srt - point.srt;
        found := [Trade(Buy, key, pct, change, ChangePct(change, point.srt), change > 0.0)];
        assert FirstExtreme(points, low, high, i, cutoff) == Some(i);
        assert found == [ExpirySignal(key, point, final, low, high)];
        break;
      } else if pct >= high {
        var change := point.srt - final.srt;
        found := [Trade(Sell, key, pct, change, ChangePct(change, point.srt), change > 0.0)];
        assert FirstExtreme(points, low, high, i, cutoff) == Some(i);
        assert found == [ExpirySignal(key, point, final, low, high)];
        break;
      }
      i := i + 1;
    }
  }

  /** `strategy_mean_reversion_to_expiry` */
  method StrategyToExpiry(options: seq<Group<OptionKey, Point>>, low: real, high: real) returns (trades: seq<Trade>)
    ensures trades == AllExpiryTrades(options, low, high)
  {
    trades := [];
    for k := 0 to |options|
      invariant trades == AllExpiryTrades(options[..k], low, high)
    {
      var more := ExpiryScan(options[k].key, options[k].values, low, high);
      assert options[..k + 1][..k] == options[..k];
      trades := trades + more;
    }
    assert options[..|options|] == options;
  }

  // ---------------------------------------------------------------------------
  // Evaluation
  // ---------------------------------------------------------------------------

  datatype Evaluation = Evaluation(
    totalTrades: nat, wins: nat, winRate: real, avgChange: real,
    buyTrades: nat, buyWinRate: real, sellTrades: nat, sellWinRate: real)

  predicate Succeeded(t: Trade) { t.success }

  predicate IsBuy(t: Trade) { t.signal == Buy }

  predicate IsSell(t: Trade) { t.signal == Sell }

  /** `part / whole * 100`, or 0 for an empty whole. */
  function Rate(part: nat, whole: nat): (r: real)
    requires part <= whole
    ensures 0.0 <= r <= 100.0
  {
    if whole == 0 then 0.0 else part as real / whole as real * 100.0
  }

  /** `[t.get('srt_change_pct', t.get('iv_change_pct', 0)) for t in trades]` */
  function Changes(trades: seq<Trade>): (c: seq<real>)
    ensures |c| == |trades| && forall i :: 0 <= i < |trades| ==> c[i] == trades[i].changePct
  {
    seq(|trades|, i requires 0 <= i < |trades| => trades[i].changePct)
  }

  /**
   * `evaluate_strategy`: None for no trades; otherwise the totals, win rates
   * in percent and the mean change.
   */
  function EvaluateStrategy(trades: seq<Trade>): (r: Option<Evaluation>)
    ensures r.None? <==> trades == []
    ensures r.Some? ==> r.value.totalTrades == |trades| && r.value.wins <= r.value.totalTrades
    ensures r.Some? ==> r.value.buyTrades + r.value.sellTrades == r.value.totalTrades
    ensures r.Some? ==> 0.0 <= r.value.winRate <= 100.0
                        && 0.0 <= r.value.buyWinRate <= 100.0 && 0.0 <= r.value.sellWinRate <= 100.0
    ensures r.Some? ==> MinOf(Changes(trades)) <= r.value.avgChange <= MaxOf(Changes(trades))
  {
    if trades == [] then None
    else
      var wins := |Filter(trades, Succeeded)|;
      var buys := Filter(trades, IsBuy);
      var sells := Filter(trades, IsSell);
      FilterComplement(trades, IsBuy, IsSell);
      MeanBounds(Changes(trades));
      Some(Evaluation(|trades|, wins, Rate(wins, |trades|), Mean(Changes(trades)),
                      |buys|, Rate(|Filter(buys, Succeeded)|, |buys|),
                      |sells|, Rate(|Filter(sells, Succeeded)|, |sells|)))
  }
}
