/**
 * The snapshot store's logic: which records `save_snapshot` persists, the
 * rows it inserts, and the SQL text and parameter lists the query helpers
 * build. Connections and execution are outside the model; a query is its
 * text and its parameters.
 */
module Database {
  import opened Wrappers
  import opened Filtering
  import opened Quotes

  // ---------------------------------------------------------------------------
  // save_snapshot
  // ---------------------------------------------------------------------------

  /**
   * The validity filter: a truthy asset and strike, and either both bid and
   * ask IV positive or a positive APY.
   */
  predicate Persistable(r: Quote) {
    r.asset != "" && r.strike != 0.0
    && ((TruthyReal(r.bidIv) && TruthyReal(r.askIv) && r.bidIv.value > 0.0 && r.askIv.value > 0.0)
        || (TruthyReal(r.apy) && r.apy.value > 0.0))
  }

  /** Truthiness adds nothing to the positivity tests: the filter in plain terms. */
  lemma PersistableMeans(r: Quote)
    ensures Persistable(r) <==>
              r.asset != "" && r.strike != 0.0
              && ((r.bidIv.Some? && r.askIv.Some? && r.bidIv.value > 0.0 && r.askIv.value > 0.0)
                  || (r.apy.Some? && r.apy.value > 0.0))
  {
  }

  function ValidRecords(records: seq<Quote>): seq<Quote> {
    Filter(records, Persistable)
  }

  /** Exactly the persistable records are kept. */
  lemma ValidRecordsExact(records: seq<Quote>, r: Quote)
    ensures r in ValidRecords(records) <==> r in records && Persistable(r)
  {
    if r in records && Persistable(r) {
      FilterKeeps(records, Persistable, r);
    }
  }

  /** A row of `iv_snapshots` as `save_snapshot` inserts it. */
  datatype SnapshotInsert = SnapshotInsert(timestamp: string, asset: string, strike: real, expiry: string,
                                           bidIv: Option<real>, askIv: Option<real>, midIv: Option<real>,
                                           optionType: Option<string>, apy: Option<real>)

  function InsertOf(r: Quote, timestamp: string): SnapshotInsert {
    SnapshotInsert(timestamp, r.asset, r.strike, r.expiry, r.bidIv, r.askIv, r.midIv, r.optionType, r.apy)
  }

  /**
   * `save_snapshot`: the rows inserted, one per valid record in order, all
   * stamped with the one `timestamp`, and their number, which it returns.
   */
  method SaveSnapshot(records: seq<Quote>, timestamp: string) returns (inserted: seq<SnapshotInsert>, saved: nat)
    ensures records == [] ==> saved == 0
    ensures saved == |inserted| == |ValidRecords(records)|
    ensures forall i :: 0 <= i < |inserted| ==> inserted[i] == InsertOf(ValidRecords(records)[i], timestamp)
    ensures forall row :: row in inserted ==> row.timestamp == timestamp
  {
    if records == [] {
      return [], 0;
    }
    var valid := [];
    for i := 0 to |records|
      invariant valid == ValidRecords(records[..i])
    {
      assert records[..i + 1][..i] == records[..i];
      if Persistable(records[i]) {
        valid := valid + [records[i]];
      }
    }
    assert records[..|records|] == records;
    if valid == [] {
      return [], 0;
    }
    inserted := [];
    for i := 0 to |valid|
      invariant |inserted| == i
      invariant forall k :: 0 <= k < i ==> inserted[k] == InsertOf(valid[k], timestamp)
    {
      inserted := inserted + [InsertOf(valid[i], timestamp)];
    }
    saved := |valid|;
  }

  // ---------------------------------------------------------------------------
  // Placeholders
  // ---------------------------------------------------------------------------

  /** The number of `?` placeholders in a query text. */
  function CountQ(s: string): nat
    decreases |s|
  {
    if s == [] then 0 else CountQ(s[..|s| - 1]) + (if s[|s| - 1] == '?' then 1 else 0)
  }

  lemma {:induction false} CountQConcat(a: string, b: string)
    ensures CountQ(a + b) == CountQ(a) + CountQ(b)
    decreases |b|
  {
    if b == [] {
      assert a + b == a;
    } else {
      assert (a + b)[..|a + b| - 1] == a + b[..|b| - 1];
      CountQConcat(a, b[..|b| - 1]);
    }
  }

  lemma {:induction false} CountQNone(s: string)
    requires '?' !in s
    ensures CountQ(s) == 0
    decreases |s|
  {
    if s != [] {
      assert s[..|s| - 1] <= s;
      CountQNone(s[..|s| - 1]);
    }
  }

  /** A literal without a `?` character, checked character by character. */
  lemma NoPlaceholder(s: string)
    requires forall i :: 0 <= i < |s| ==> s[i] != '?'
    ensures '?' !in s
  {
  }

  /** Appending a placeholder adds one. */
  lemma CountQPlaceholder(a: string)
    ensures CountQ(a + "?") == CountQ(a) + 1
  {
    assert (a + "?")[..|a|] == a;
  }

  /** A query parameter: text (timestamps, asset, expiry) or a number (strike). */
  datatype SqlParam = Text(text: string) | Number(value: real)

  datatype Query = Query(sql: string, params: seq<SqlParam>)

  // The literal pieces of the queries, as the source writes them; the lines
  // of the triple-quoted queries start with a newline and their indentation.
  const Indent8: string := "\n        "
  const Indent12: string := "\n            "
  const QueryEnd: string := "\n    "
  const HistoryBase: string := "SELECT * FROM iv_snapshots " + "WHERE timestamp > " + "?"
  const AssetFilter: string := " AND asset = " + "?"
  const StrikeFilter: string := " AND strike = " + "?"
  const ExpiryFilter: string := " AND expiry = " + "?"
  const HistoryOrder: string := " ORDER BY timestamp DESC"
  const LatestBase: string :=
    Indent8 + "SELECT * FROM iv_snapshots s1"
    + Indent8 + "WHERE timestamp = ("
    + Indent12 + "SELECT MAX(timestamp)" + " FROM iv_snapshots s2"
    + Indent12 + "WHERE s1.asset = s2.asset"
    + Indent12 + "AND s1.strike = s2.strike"
    + Indent12 + "AND s1.expiry = s2.expiry"
    + Indent8 + ")" + QueryEnd
  const LatestOrder: string := " ORDER BY asset, strike, expiry"
  const TimeseriesHead: string :=
    Indent8 + "SELECT timestamp, bid_iv," + " ask_iv, mid_iv, strike," + " expiry, option_type"
    + Indent8 + "FROM iv_snapshots"
    + Indent8 + "WHERE asset = "
  const TimeseriesBase: string := TimeseriesHead + "?" + " AND timestamp > " + "?" + QueryEnd
  const TimeseriesOrder: string := " ORDER BY timestamp ASC"

  lemma HistoryBaseCount()
    ensures CountQ(HistoryBase) == 1
  {
    NoPlaceholder("SELECT * FROM iv_snapshots ");
    NoPlaceholder("WHERE timestamp > ");
    CountQNone("SELECT * FROM iv_snapshots " + "WHERE timestamp > ");
    CountQPlaceholder("SELECT * FROM iv_snapshots " + "WHERE timestamp > ");
  }

  lemma FilterCounts()
    ensures CountQ(AssetFilter) == 1 && CountQ(StrikeFilter) == 1 && CountQ(ExpiryFilter) == 1
  {
    CountQNone(" AND asset = ");
    CountQPlaceholder(" AND asset = ");
    CountQNone(" AND strike = ");
    CountQPlaceholder(" AND strike = ");
    CountQNone(" AND expiry = ");
    CountQPlaceholder(" AND expiry = ");
  }

  lemma LatestBaseCount()
    ensures CountQ(LatestBase) == 0
  {
    NoPlaceholder(Indent8);
    NoPlaceholder(Indent12);
    NoPlaceholder(QueryEnd);
    NoPlaceholder("SELECT * FROM iv_snapshots s1");
    NoPlaceholder("WHERE timestamp = (");
    NoPlaceholder("SELECT MAX(timestamp)");
    NoPlaceholder(" FROM iv_snapshots s2");
    NoPlaceholder("WHERE s1.asset = s2.asset");
    NoPlaceholder("AND s1.strike = s2.strike");
    NoPlaceholder("AND s1.expiry = s2.expiry");
    CountQNone(LatestBase);
  }

  lemma OrderCounts()
    ensures CountQ(HistoryOrder) == 0 && CountQ(LatestOrder) == 0 && CountQ(TimeseriesOrder) == 0
  {
    CountQNone(HistoryOrder);
    CountQNone(LatestOrder);
    CountQNone(TimeseriesOrder);
  }

  lemma TimeseriesHeadCount()
    ensures CountQ(TimeseriesHead) == 0
  {
    NoPlaceholder(Indent8);
    NoPlaceholder("SELECT timestamp, bid_iv,");
    NoPlaceholder(" ask_iv, mid_iv, strike,");
    NoPlaceholder(" expiry, option_type");
    NoPlaceholder("FROM iv_snapshots");
    NoPlaceholder("WHERE asset = ");
    CountQNone(TimeseriesHead);
  }

  lemma TimeseriesBaseCount()
    ensures CountQ(TimeseriesBase) == 2
  {
    var head := TimeseriesHead;
    TimeseriesHeadCount();
    CountQPlaceholder(head);
    CountQNone(" AND timestamp > ");
    CountQConcat(head + "?", " AND timestamp > ");
    CountQPlaceholder(head + "?" + " AND timestamp > ");
    CountQNone(QueryEnd);
    CountQConcat(head + "?" + " AND timestamp > " + "?", QueryEnd);
  }

  /** Appending a clause with `k` placeholders and `k` parameters keeps them in step. */
  lemma ClauseKeepsCount(q: Query, clause: string, params: seq<SqlParam>)
    requires CountQ(q.sql) == |q.params| && CountQ(clause) == |params|
    ensures CountQ(q.sql + clause) == |q.params + params|
  {
    CountQConcat(q.sql, clause);
  }

  /** `query += clause; params.append(param)` when `cond` holds. */
  function AddFilter(q: Query, cond: bool, clause: string, param: SqlParam): (r: Query)
    ensures !cond ==> r == q
    ensures cond ==> r.sql == q.sql + clause && r.params == q.params + [param]
  {
    if cond then Query(q.sql + clause, q.params + [param]) else q
  }

  /** A filter with one placeholder keeps placeholders and parameters in step. */
  lemma AddFilterKeepsCount(q: Query, cond: bool, clause: string, param: SqlParam)
    requires CountQ(q.sql) == |q.params| && CountQ(clause) == 1
    ensures CountQ(AddFilter(q, cond, clause, param).sql) == |AddFilter(q, cond, clause, param).params|
  {
    if cond {
      ClauseKeepsCount(q, clause, [param]);
    }
  }

  /** `query += clause`: a clause without placeholders. */
  function AddText(q: Query, clause: string): Query {
    Query(q.sql + clause, q.params)
  }

  lemma AddTextEnds(q: Query, clause: string)
    ensures var r := AddText(q, clause).sql;
            |r| >= |clause| && r[|r| - |clause|..] == clause && r[..|q.sql|] == q.sql
  {
  }

  // ---------------------------------------------------------------------------
  // get_history
  // ---------------------------------------------------------------------------

  /** The query `get_history` runs: the optional filters in the order asset, strike, expiry. */
  function HistoryQuery(asset: Option<string>, since: string, strike: Option<real>, expiry: Option<string>): Query {
    var q := Query(HistoryBase, [Text(since)]);
    var q := AddFilter(q, TruthyStr(asset), AssetFilter, Text(asset.GetOr("")));
    var q := AddFilter(q, TruthyReal(strike), StrikeFilter, Number(strike.GetOr(0.0)));
    var q := AddFilter(q, TruthyStr(expiry), ExpiryFilter, Text(expiry.GetOr("")));
    AddText(q, HistoryOrder)
  }

  /** `get_history`'s query building, clause by clause. */
  method GetHistory(asset: Option<string>, since: string, strike: Option<real>, expiry: Option<string>) returns (q: Query)
    ensures q == HistoryQuery(asset, since, strike, expiry)
  {
    var query := HistoryBase;
    var params := [Text(since)];
    if TruthyStr(asset) {
      query := query + AssetFilter;
      params := params + [Text(asset.value)];
    }
    if TruthyReal(strike) {
      query := query + StrikeFilter;
      params := params + [Number(strike.value)];
    }
    if TruthyStr(expiry) {
      query := query + ExpiryFilter;
      params := params + [Text(expiry.value)];
    }
    query := query + HistoryOrder;
    return Query(query, params);
  }

  /** Placeholders and parameters agree, the first parameter is the `since` bound, and the text ends newest-first. */
  lemma HistoryWellFormed(asset: Option<string>, since: string, strike: Option<real>, expiry: Option<string>)
    ensures var q := HistoryQuery(asset, since, strike, expiry);
            CountQ(q.sql) == |q.params| && q.params[0] == Text(since)
            && |q.sql| >= |HistoryOrder| && q.sql[|q.sql| - |HistoryOrder|..] == HistoryOrder
  {
    HistoryBaseCount();
    FilterCounts();
    OrderCounts();
    var q0 := Query(HistoryBase, [Text(since)]);
    var q1 := AddFilter(q0, TruthyStr(asset), AssetFilter, Text(asset.GetOr("")));
    var q2 := AddFilter(q1, TruthyReal(strike), StrikeFilter, Number(strike.GetOr(0.0)));
    var q3 := AddFilter(q2, TruthyStr(expiry), ExpiryFilter, Text(expiry.GetOr("")));
    AddFilterKeepsCount(q0, TruthyStr(asset), AssetFilter, Text(asset.GetOr("")));
    AddFilterKeepsCount(q1, TruthyReal(strike), StrikeFilter, Number(strike.GetOr(0.0)));
    AddFilterKeepsCount(q2, TruthyStr(expiry), ExpiryFilter, Text(expiry.GetOr("")));
    ClauseKeepsCount(q3, HistoryOrder, []);
    assert q3.params + [] == q3.params;
    AddTextEnds(q3, HistoryOrder);
  }

  /** The filters' parameters follow `since` in the order asset, strike, expiry. */
  lemma HistoryParamOrder(asset: Option<string>, since: string, strike: Option<real>, expiry: Option<string>)
    ensures var p := HistoryQuery(asset, since, strike, expiry).params;
            var n := 1 + (if TruthyStr(asset) then 1 else 0);
            var m := n + (if TruthyReal(strike) then 1 else 0);
            |p| == m + (if TruthyStr(expiry) then 1 else 0)
            && (TruthyStr(asset) ==> p[1] == Text(asset.value))
            && (TruthyReal(strike) ==> p[n] == Number(strike.value))
            && (TruthyStr(expiry) ==> p[m] == Text(expiry.value))
  {
  }

  /** A strike of 0 or None adds no filter: the query is the one built without a strike. */
  lemma HistoryIgnoresZeroStrike(asset: Option<string>, since: string, strike: Option<real>, expiry: Option<string>)
    requires strike.None? || strike.value == 0.0
    ensures HistoryQuery(asset, since, strike, expiry) == HistoryQuery(asset, since, None, expiry)
  {
  }

  // ---------------------------------------------------------------------------
  // get_latest
  // ---------------------------------------------------------------------------

  function LatestQuery(asset: Option<string>): Query {
    var q := AddFilter(Query(LatestBase, []), TruthyStr(asset), AssetFilter, Text(asset.GetOr("")));
    AddText(q, LatestOrder)
  }

  /** `get_latest`'s query building. */
  method GetLatest(asset: Option<string>) returns (q: Query)
    ensures q == LatestQuery(asset)
  {
    var query := LatestBase;
    var params := [];
    if TruthyStr(asset) {
      query := query + AssetFilter;
      params := params + [Text(asset.value)];
    }
    query := query + LatestOrder;
    return Query(query, params);
  }

  /** The parameters are `[]` or `[asset]`, and they match the placeholders. */
  lemma LatestWellFormed(asset: Option<string>)
    ensures var q := LatestQuery(asset);
            CountQ(q.sql) == |q.params|
            && (q.params == [] <==> !TruthyStr(asset))
            && (TruthyStr(asset) ==> q.params == [Text(asset.value)])
  {
    LatestBaseCount();
    FilterCounts();
    OrderCounts();
    var q0 := Query(LatestBase, []);
    var q1 := AddFilter(q0, TruthyStr(asset), AssetFilter, Text(asset.GetOr("")));
    AddFilterKeepsCount(q0, TruthyStr(asset), AssetFilter, Text(asset.GetOr("")));
    ClauseKeepsCount(q1, LatestOrder, []);
    assert q1.params + [] == q1.params;
  }

  // ---------------------------------------------------------------------------
  // get_iv_timeseries
  // ---------------------------------------------------------------------------

  function TimeseriesQuery(asset: string, since: string, strike: Option<real>, expiry: Option<string>): Query {
    var q := Query(TimeseriesBase, [Text(asset), Text(since)]);
    var q := AddFilter(q, TruthyReal(strike), StrikeFilter, Number(strike.GetOr(0.0)));
    var q := AddFilter(q, TruthyStr(expiry), ExpiryFilter, Text(expiry.GetOr("")));
    AddText(q, TimeseriesOrder)
  }

  /** `get_iv_timeseries`'s query building. */
  method GetIvTimeseries(asset: string, since: string, strike: Option<real>, expiry: Option<string>) returns (q: Query)
    ensures q == TimeseriesQuery(asset, since, strike, expiry)
  {
    var query := TimeseriesBase;
    var params := [Text(asset), Text(since)];
    if TruthyReal(strike) {
      query := query + StrikeFilter;
      params := params + [Number(strike.value)];
    }
    if TruthyStr(expiry) {
      query := query + ExpiryFilter;
      params := params + [Text(expiry.value)];
    }
    query := query + TimeseriesOrder;
    return Query(query, params);
  }

  /** Placeholders and parameters agree, the parameters start `[asset, since]`, and the text ends oldest-first. */
  lemma TimeseriesWellFormed(asset: string, since: string, strike: Option<real>, expiry: Option<string>)
    ensures var q := TimeseriesQuery(asset, since, strike, expiry);
            CountQ(q.sql) == |q.params| && q.params[..2] == [Text(asset), Text(since)]
            && |q.sql| >= |TimeseriesOrder| && q.sql[|q.sql| - |TimeseriesOrder|..] == TimeseriesOrder
  {
    TimeseriesBaseCount();
    FilterCounts();
    OrderCounts();
    var q0 := Query(TimeseriesBase, [Text(asset), Text(since)]);
    var q1 := AddFilter(q0, TruthyReal(strike), StrikeFilter, Number(strike.GetOr(0.0)));
    var q2 := AddFilter(q1, TruthyStr(expiry), ExpiryFilter, Text(expiry.GetOr("")));
    AddFilterKeepsCount(q0, TruthyReal(strike), StrikeFilter, Number(strike.GetOr(0.0)));
    AddFilterKeepsCount(q1, TruthyStr(expiry), ExpiryFilter, Text(expiry.GetOr("")));
    ClauseKeepsCount(q2, TimeseriesOrder, []);
    assert q2.params + [] == q2.params;
    AddTextEnds(q2, TimeseriesOrder);
  }
}
