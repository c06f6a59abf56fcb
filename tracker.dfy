/**
 * Quote extraction from the Rysk Finance page (tracker.py): the page's
 * embedded `serverInventory` JSON is cut into one chunk per asset, each
 * chunk's option entries become quote records, records quoted without an IV
 * get one derived from their APY, and duplicates are dropped.
 *
 * What regular expressions capture is an input: `findall` maps a chunk to the
 * entries the entry pattern finds in it, already converted with `float()`.
 */
module Tracker {
  import opened Wrappers
  import opened Strings
  import opened Sorting
  import opened Quotes
  import IvCalculator

  // ---------------------------------------------------------------------------
  // Asset names
  // ---------------------------------------------------------------------------

  /** The wrapped-token aliases the tracker folds onto their underlying asset. */
  function Canonical(u: string): string {
    if u == "UBTC" || u == "WBTC" then "BTC"
    else if u == "UETH" || u == "WETH" then "ETH"
    else if u == "USOL" || u == "WSOL" then "SOL"
    else u
  }

  predicate NoLowerCase(s: string) {
    forall i :: 0 <= i < |s| ==> !IsAsciiLower(s[i])
  }

  /** `normalize_asset`: upper-case, then map U-/W- wrapped tokens to BTC, ETH or SOL. */
  function NormalizeAsset(asset: Option<string>): (r: Option<string>)
    ensures r.None? <==> !TruthyStr(asset)
    ensures r.Some? ==> r.value != "" && NoLowerCase(r.value)
    ensures r.Some? && (Upper(asset.value) == "UBTC" || Upper(asset.value) == "WBTC") ==> r.value == "BTC"
    ensures r.Some? && (Upper(asset.value) == "UETH" || Upper(asset.value) == "WETH") ==> r.value == "ETH"
    ensures r.Some? && (Upper(asset.value) == "USOL" || Upper(asset.value) == "WSOL") ==> r.value == "SOL"
    ensures r.Some? && Canonical(Upper(asset.value)) == Upper(asset.value) ==> r.value == Upper(asset.value)
  {
    if !TruthyStr(asset) then None
    else
      var u := Upper(asset.value);
      assert |u| == |asset.value| > 0;
      Some(Canonical(u))
  }

  /** Normalising an already normalised name changes nothing. */
  lemma NormalizeIdempotent(asset: Option<string>)
    ensures NormalizeAsset(NormalizeAsset(asset)) == NormalizeAsset(asset)
  {
    var r := NormalizeAsset(asset);
    if r.Some? {
      UpperOfUpper(r.value);
      assert Canonical(r.value) == r.value;
    }
  }

  /** The longest prefix of `s` made of the letters A-Z. */
  function LeadingLetters(s: string): (p: string)
    ensures |p| <= |s| && p == s[..|p|]
    ensures forall i :: 0 <= i < |p| ==> IsAsciiUpper(p[i])
    ensures |p| < |s| ==> !IsAsciiUpper(s[|p|])
    decreases |s|
  {
    if s == [] || !IsAsciiUpper(s[0]) then []
    else [s[0]] + LeadingLetters(s[1..])
  }

  /** `extract_asset_from_name`: the run of letters the upper-cased name starts with, if any. */
  function ExtractAssetFromName(name: string): (r: Option<string>)
    ensures r.None? <==> name == "" || !IsAsciiUpper(Upper(name)[0])
    ensures r.Some? ==> r.value != "" && r.value == LeadingLetters(Upper(name))
  {
    if name == "" then None
    else
      var p := LeadingLetters(Upper(name));
      if p == "" then None else Some(p)
  }

  // ---------------------------------------------------------------------------
  // Records from loosely keyed dicts
  // ---------------------------------------------------------------------------

  /**
   * The keys `extract_record_from_dict` reads. Each field is that key's
   * value, None when the key is missing or holds None. A missing `name`
   * reads as "" (`str(None)` upper-cases to "NONE", which contains none of
   * the side markers, so it behaves the same).
   */
  datatype QuoteDict = QuoteDict(
    bidIvCamel: Option<real>,    // 'bidIv'
    bidIvSnake: Option<real>,    // 'bid_iv'
    askIvCamel: Option<real>,    // 'askIv'
    askIvSnake: Option<real>,    // 'ask_iv'
    asset: Option<string>,
    underlying: Option<string>,
    symbol: Option<string>,
    baseAsset: Option<string>,
    name: string,
    strike: Option<real>,
    strikePrice: Option<real>,
    expiry: Option<string>,
    expiration: Option<string>,
    maturity: Option<string>,
    optionType: Option<string>,
    typeName: Option<string>)     // 'type'

  function DictBid(d: QuoteDict): Option<real> { OrReal(d.bidIvCamel, d.bidIvSnake) }

  function DictAsk(d: QuoteDict): Option<real> { OrReal(d.askIvCamel, d.askIvSnake) }

  /** `float(x) if x else None` */
  function KeepTruthy(x: Option<real>): (r: Option<real>)
    ensures r.Some? <==> TruthyReal(x)
    ensures r.Some? ==> r == x
  {
    if TruthyReal(x) then x else None
  }

  function DictAsset(d: QuoteDict): Option<string> {
    NormalizeAsset(OrStr(OrStr(OrStr(OrStr(d.asset, d.underlying), d.symbol), d.baseAsset),
                         ExtractAssetFromName(d.name)))
  }

  /** The option side: an explicit field, else "call"/"put" read from the name, CALL winning. */
  function DictSide(d: QuoteDict): (side: Option<string>)
    ensures TruthyStr(OrStr(d.optionType, d.typeName)) ==> side == OrStr(d.optionType, d.typeName)
    ensures var explicit, n := OrStr(d.optionType, d.typeName), Upper(d.name);
            !TruthyStr(explicit) && (Contains(n, "CALL") || Contains(n, "-C-")) ==> side == Some("call")
    ensures var explicit, n := OrStr(d.optionType, d.typeName), Upper(d.name);
            (!TruthyStr(explicit) && !Contains(n, "CALL") && !Contains(n, "-C-")
             && (Contains(n, "PUT") || Contains(n, "-P-")))
            ==> side == Some("put")
    ensures var explicit, n := OrStr(d.optionType, d.typeName), Upper(d.name);
            (!TruthyStr(explicit) && !Contains(n, "CALL") && !Contains(n, "-C-")
             && !Contains(n, "PUT") && !Contains(n, "-P-"))
            ==> !TruthyStr(side)
  {
    var explicit := OrStr(d.optionType, d.typeName);
    if TruthyStr(explicit) then explicit
    else
      var n := Upper(d.name);
      if Contains(n, "CALL") || Contains(n, "-C-") then Some("call")
      else if Contains(n, "PUT") || Contains(n, "-P-") then Some("put")
      else explicit
  }

  /** `extract_record_from_dict` */
  function ExtractRecordFromDict(d: QuoteDict): (r: Option<Quote>)
    ensures r.Some? <==> (DictBid(d).Some? || DictAsk(d).Some?) && DictAsset(d).Some?
                         && OrReal(d.strike, d.strikePrice).Some?
    ensures r.Some? ==> r.value.asset == DictAsset(d).value && r.value.strike == OrReal(d.strike, d.strikePrice).value
    ensures r.Some? ==> r.value.bidIv == KeepTruthy(DictBid(d)) && r.value.askIv == KeepTruthy(DictAsk(d))
    ensures r.Some? && TruthyReal(DictBid(d)) && TruthyReal(DictAsk(d)) ==>
              r.value.midIv == Some((DictBid(d).value + DictAsk(d).value) / 2.0)
    ensures r.Some? && !(TruthyReal(DictBid(d)) && TruthyReal(DictAsk(d))) ==>
              r.value.midIv == (if TruthyReal(DictBid(d)) then DictBid(d) else KeepTruthy(DictAsk(d)))
    ensures r.Some? ==> r.value.expiry == (var e := OrStr(OrStr(d.expiry, d.expiration), d.maturity);
                                           if TruthyStr(e) then e.value else "unknown")
    ensures r.Some? ==> r.value.optionType == DictSide(d) && r.value.apy.None? && !r.value.ivCalculated
  {
    var bid0 := DictBid(d);
    var ask0 := DictAsk(d);
    if bid0.None? && ask0.None? then None
    else
      var bid := KeepTruthy(bid0);
      var ask := KeepTruthy(ask0);
      var mid := if TruthyReal(bid) && TruthyReal(ask) then Some((bid.value + ask.value) / 2.0) else OrReal(bid, ask);
      var asset := DictAsset(d);
      var strike := OrReal(d.strike, d.strikePrice);
      var expiry := OrStr(OrStr(d.expiry, d.expiration), d.maturity);
      if asset.None? || strike.None? then None
      else Some(Quote(asset.value, strike.value, if TruthyStr(expiry) then expiry.value else "unknown",
                      DictSide(d), bid, ask, mid, None, false))
  }

  // ---------------------------------------------------------------------------
  // serverInventory chunks
  // ---------------------------------------------------------------------------

  const TrackedAssets: seq<string> := ["BTC", "ETH", "SOL", "HYPE", "PURR", "PUMP", "ZEC", "XRP"]

  /** How far the last asset's section is taken to reach. */
  const LastSectionLength: nat := 20000

  /** What opens an asset's section: `"BTC":{"combinations":` */
  function Marker(asset: string): string {
    "\"" + asset + "\":{\"combinations\":"
  }

  /** `html.replace('\\"', '"').replace('\\\\', '\\')`: undo one level of JSON escaping. */
  function Unescape(html: string): (r: string)
    ensures !Contains(html, "\\\"") && !Contains(html, "\\\\") ==> r == html
  {
    Replace(Replace(html, "\\\"", "\""), "\\\\", "\\")
  }

  datatype Chunk = Chunk(asset: string, start: nat, end: nat)

  /** The (asset, position) pairs of the assets whose marker occurs in `html`, in list order. */
  function FoundPositions(html: string, assets: seq<string>): (found: seq<(string, nat)>)
    ensures forall i :: 0 <= i < |found| ==> found[i].0 in assets
    ensures forall i :: 0 <= i < |found| ==> found[i].1 == Find(html, Marker(found[i].0))
    decreases |assets|
  {
    if assets == [] then []
    else
      var init := assets[..|assets| - 1];
      var a := assets[|assets| - 1];
      var pos := Find(html, Marker(a));
      FoundPositions(html, init) + (if pos >= 0 then [(a, pos as nat)] else [])
  }

  /** An asset whose marker occurs is found. */
  lemma {:induction false} FoundPositionsComplete(html: string, assets: seq<string>, a: string)
    requires a in assets && Find(html, Marker(a)) >= 0
    ensures (a, Find(html, Marker(a)) as nat) in FoundPositions(html, assets)
    decreases |assets|
  {
    var init := assets[..|assets| - 1];
    if assets[|assets| - 1] != a {
      assert a in init by {
        var k :| 0 <= k < |assets| && assets[k] == a;
        assert init[k] == a;
      }
      FoundPositionsComplete(html, init, a);
    }
  }

  function ByPosition(x: (string, nat), y: (string, nat)): bool {
    x.1 <= y.1
  }

  lemma ByPositionIsTotalPreorder()
    ensures TotalPreorder(ByPosition)
  {
  }

  /** Each section runs to the next section's start; the last one is 20000 characters long. */
  function ChunksOf(sorted: seq<(string, nat)>): seq<Chunk> {
    seq(|sorted|, i requires 0 <= i < |sorted| =>
      Chunk(sorted[i].0, sorted[i].1, if i + 1 < |sorted| then sorted[i + 1].1 else sorted[i].1 + LastSectionLength))
  }

  /**
   * The section structure: every section opens with its tracked asset's
   * marker, sections are ordered by start, each ends where the next begins,
   * and the last is 20000 characters long.
   */
  predicate SectionsWellFormed(html: string, chunks: seq<Chunk>) {
    (forall i :: 0 <= i < |chunks| ==>
       chunks[i].asset in TrackedAssets && chunks[i].start <= |html|
       && StartsWith(html[chunks[i].start..], Marker(chunks[i].asset)))
    && (forall i :: 0 <= i < |chunks| - 1 ==> chunks[i].end == chunks[i + 1].start)
    && (forall i, j :: 0 <= i < j < |chunks| ==> chunks[i].start <= chunks[j].start)
    && (|chunks| > 0 ==> chunks[|chunks| - 1].end == chunks[|chunks| - 1].start + LastSectionLength)
  }

  /** Every tracked asset whose marker occurs has a section starting at its first occurrence. */
  predicate CoversFoundMarkers(html: string, chunks: seq<Chunk>) {
    forall a :: a in TrackedAssets && Find(html, Marker(a)) >= 0 ==>
      exists i :: 0 <= i < |chunks| && chunks[i].asset == a && chunks[i].start == Find(html, Marker(a))
  }

  function SectionsOf(html: string): seq<Chunk> {
    ChunksOf(SortBy(FoundPositions(html, TrackedAssets), ByPosition))
  }

  /** Every position opens its tracked asset's marker. */
  predicate AtMarkers(html: string, found: seq<(string, nat)>) {
    forall i :: 0 <= i < |found| ==>
      found[i].0 in TrackedAssets && found[i].1 <= |html| && StartsWith(html[found[i].1..], Marker(found[i].0))
  }

  lemma MarkerStarts(html: string, a: string, p: nat)
    requires p == Find(html, Marker(a))
    ensures p <= |html| && StartsWith(html[p..], Marker(a))
  {
  }

  lemma FoundPositionsAtMarkers(html: string)
    ensures AtMarkers(html, FoundPositions(html, TrackedAssets))
  {
    var found := FoundPositions(html, TrackedAssets);
    forall i | 0 <= i < |found|
      ensures found[i].0 in TrackedAssets && found[i].1 <= |html| && StartsWith(html[found[i].1..], Marker(found[i].0))
    {
      MarkerStarts(html, found[i].0, found[i].1);
    }
  }

  lemma SortedAtMarkers(html: string, positions: seq<(string, nat)>)
    requires AtMarkers(html, positions)
    ensures AtMarkers(html, SortBy(positions, ByPosition))
  {
    var sorted := SortBy(positions, ByPosition);
    forall i | 0 <= i < |sorted|
      ensures sorted[i].0 in TrackedAssets && sorted[i].1 <= |html| && StartsWith(html[sorted[i].1..], Marker(sorted[i].0))
    {
      SortByMembers(positions, ByPosition, sorted[i]);
      var k :| 0 <= k < |positions| && positions[k] == sorted[i];
    }
  }

  lemma ChunksOfStructure(html: string, sorted: seq<(string, nat)>)
    requires AtMarkers(html, sorted) && SortedBy(sorted, ByPosition)
    ensures SectionsWellFormed(html, ChunksOf(sorted))
  {
    var chunks := ChunksOf(sorted);
    forall i | 0 <= i < |chunks|
      ensures chunks[i].asset in TrackedAssets && chunks[i].start <= |html|
              && StartsWith(html[chunks[i].start..], Marker(chunks[i].asset))
    {
      assert chunks[i].asset == sorted[i].0 && chunks[i].start == sorted[i].1;
    }
    forall i | 0 <= i < |chunks| - 1
      ensures chunks[i].end == chunks[i + 1].start
    {
      assert chunks[i].end == sorted[i + 1].1;
    }
    forall i, j | 0 <= i < j < |chunks|
      ensures chunks[i].start <= chunks[j].start
    {
      assert ByPosition(sorted[i], sorted[j]);
    }
  }

  lemma ChunksOfCover(html: string, positions: seq<(string, nat)>)
    requires forall a :: a in TrackedAssets && Find(html, Marker(a)) >= 0 ==> (a, Find(html, Marker(a)) as nat) in positions
    ensures CoversFoundMarkers(html, ChunksOf(SortBy(positions, ByPosition)))
  {
    var sorted := SortBy(positions, ByPosition);
    var chunks := ChunksOf(sorted);
    forall a | a in TrackedAssets && Find(html, Marker(a)) >= 0
      ensures exists i :: 0 <= i < |chunks| && chunks[i].asset == a && chunks[i].start == Find(html, Marker(a))
    {
      var p := (a, Find(html, Marker(a)) as nat);
      SortByMembers(positions, ByPosition, p);
      var i :| 0 <= i < |sorted| && sorted[i] == p;
      assert chunks[i].asset == a;
    }
  }

  /** The sections of any page are well formed and cover every marker found. */
  lemma SectionsOfWellFormed(html: string)
    ensures SectionsWellFormed(html, SectionsOf(html))
    ensures CoversFoundMarkers(html, SectionsOf(html))
  {
    var positions := FoundPositions(html, TrackedAssets);
    FoundPositionsAtMarkers(html);
    SortedAtMarkers(html, positions);
    ByPositionIsTotalPreorder();
    SortBySorted(positions, ByPosition);
    ChunksOfStructure(html, SortBy(positions, ByPosition));
    forall a | a in TrackedAssets && Find(html, Marker(a)) >= 0
      ensures (a, Find(html, Marker(a)) as nat) in positions
    {
      FoundPositionsComplete(html, TrackedAssets, a);
    }
    ChunksOfCover(html, positions);
  }

  /** The marker search over the tracked assets, in list order. */
  method FindMarkers(html: string) returns (positions: seq<(string, nat)>)
    ensures positions == FoundPositions(html, TrackedAssets)
  {
    positions := [];
    for n := 0 to |TrackedAssets|
      invariant positions == FoundPositions(html, TrackedAssets[..n])
    {
      var asset := TrackedAssets[n];
      var pos := Find(html, Marker(asset));
      if pos >= 0 {
        positions := positions + [(asset, pos as nat)];
      }
      assert TrackedAssets[..n + 1][..n] == TrackedAssets[..n];
    }
    assert TrackedAssets[..|TrackedAssets|] == TrackedAssets;
  }

  /** Cutting the page at the sorted positions. */
  method CutSections(sorted: seq<(string, nat)>) returns (chunks: seq<Chunk>)
    ensures chunks == ChunksOf(sorted)
  {
    chunks := [];
    for i := 0 to |sorted|
      invariant chunks == ChunksOf(sorted)[..i]
    {
      var end := if i + 1 < |sorted| then sorted[i + 1].1 else sorted[i].1 + LastSectionLength;
      chunks := chunks + [Chunk(sorted[i].0, sorted[i].1, end)];
    }
  }

  /** The asset sections of `html`, ordered by where they start. */
  method AssetChunks(html: string) returns (chunks: seq<Chunk>)
    ensures chunks == SectionsOf(html)
    ensures SectionsWellFormed(html, chunks) && CoversFoundMarkers(html, chunks)
  {
    var positions := FindMarkers(html);
    var sorted := SortBy(positions, ByPosition);
    chunks := CutSections(sorted);
    SectionsOfWellFormed(html);
  }

  // ---------------------------------------------------------------------------
  // Records from inventory entries
  // ---------------------------------------------------------------------------

  /** One match of the entry pattern, its numeric captures converted with `float()`. */
  datatype InventoryEntry = InventoryEntry(
    strikeKey: string, timestamp: string, expiry: string, strike: real,
    isPut: string, bidIv: real, askIv: real, apy: real)

  /** `x if x > 0 else None` */
  function PositiveOrNone(x: real): (r: Option<real>)
    ensures r.Some? <==> x > 0.0
    ensures r.Some? ==> r.value == x
  {
    if x > 0.0 then Some(x) else None
  }

  /** The record built for one entry of an asset's section. */
  function InventoryRecord(asset: string, e: InventoryEntry): (q: Quote)
    ensures q.asset == asset && q.strike == e.strike && q.expiry == e.expiry
    ensures q.midIv.Some? <==> e.bidIv > 0.0 && e.askIv > 0.0
    ensures q.midIv.Some? ==> q.midIv.value == (e.bidIv + e.askIv) / 2.0
    ensures q.bidIv == PositiveOrNone(e.bidIv) && q.askIv == PositiveOrNone(e.askIv)
    ensures q.apy == PositiveOrNone(e.apy)
    ensures q.optionType == Some(if e.isPut == "true" then "put" else "call")
    ensures !q.ivCalculated
  {
    Quote(asset, e.strike, e.expiry, Some(if e.isPut == "true" then "put" else "call"),
          PositiveOrNone(e.bidIv), PositiveOrNone(e.askIv),
          if e.bidIv > 0.0 && e.askIv > 0.0 then Some((e.bidIv + e.askIv) / 2.0) else None,
          PositiveOrNone(e.apy), false)
  }

  function ChunkRecords(html: string, c: Chunk, findall: string -> seq<InventoryEntry>): seq<Quote> {
    var entries := findall(Slice(html, c.start, c.end));
    seq(|entries|, j requires 0 <= j < |entries| => InventoryRecord(c.asset, entries[j]))
  }

  function AllChunkRecords(html: string, chunks: seq<Chunk>, findall: string -> seq<InventoryEntry>): seq<Quote>
    decreases |chunks|
  {
    if chunks == [] then []
    else AllChunkRecords(html, chunks[..|chunks| - 1], findall) + ChunkRecords(html, chunks[|chunks| - 1], findall)
  }

  /** Every record comes from a tracked asset's section. */
  lemma {:induction false} AllChunkRecordsAssets(html: string, chunks: seq<Chunk>, findall: string -> seq<InventoryEntry>)
    requires forall i :: 0 <= i < |chunks| ==> chunks[i].asset in TrackedAssets
    ensures forall q :: q in AllChunkRecords(html, chunks, findall) ==> q.asset in TrackedAssets
    decreases |chunks|
  {
    if chunks != [] {
      AllChunkRecordsAssets(html, chunks[..|chunks| - 1], findall);
    }
  }

  /** The records of one section: one per match of the entry pattern, in match order. */
  method SectionRecords(html: string, c: Chunk, findall: string -> seq<InventoryEntry>) returns (fromChunk: seq<Quote>)
    ensures fromChunk == ChunkRecords(html, c, findall)
  {
    var entries := findall(Slice(html, c.start, c.end));
    fromChunk := [];
    for j := 0 to |entries|
      invariant |fromChunk| == j
      invariant forall k :: 0 <= k < j ==> fromChunk[k] == InventoryRecord(c.asset, entries[k])
    {
      fromChunk := fromChunk + [InventoryRecord(c.asset, entries[j])];
    }
  }

  /** The records of every section, section after section. */
  method CollectRecords(html: string, chunks: seq<Chunk>, findall: string -> seq<InventoryEntry>) returns (records: seq<Quote>)
    ensures records == AllChunkRecords(html, chunks, findall)
  {
    records := [];
    for i := 0 to |chunks|
      invariant records == AllChunkRecords(html, chunks[..i], findall)
    {
      var fromChunk := SectionRecords(html, chunks[i], findall);
      records := records + fromChunk;
      assert chunks[..i + 1][..i] == chunks[..i];
    }
    assert chunks[..|chunks|] == chunks;
  }

  /** `extract_iv_from_server_inventory` */
  method ExtractFromServerInventory(html: string, findall: string -> seq<InventoryEntry>) returns (records: seq<Quote>)
    ensures records == AllChunkRecords(html, SectionsOf(html), findall)
    ensures forall q :: q in records ==> q.asset in TrackedAssets && !q.ivCalculated
    ensures forall q :: q in records ==> (q.midIv.Some? <==> q.bidIv.Some? && q.askIv.Some?)
  {
    var chunks := AssetChunks(html);
    records := CollectRecords(html, chunks, findall);
    AllChunkRecordsAssets(html, chunks, findall);
    AllChunkRecordsShape(html, chunks, findall);
  }

  lemma {:induction false} AllChunkRecordsShape(html: string, chunks: seq<Chunk>, findall: string -> seq<InventoryEntry>)
    ensures forall q :: q in AllChunkRecords(html, chunks, findall) ==>
              !q.ivCalculated && (q.midIv.Some? <==> q.bidIv.Some? && q.askIv.Some?)
    decreases |chunks|
  {
    if chunks != [] {
      AllChunkRecordsShape(html, chunks[..|chunks| - 1], findall);
    }
  }

  // ---------------------------------------------------------------------------
  // Deriving missing IVs
  // ---------------------------------------------------------------------------

  /** `record.get('bid_iv') and record.get('bid_iv') > 0` */
  predicate HasQuotedIv(q: Quote) {
    TruthyReal(q.bidIv) && q.bidIv.value > 0.0
  }

  /** The IV `calculate_missing_iv` derives for a record, checking its own list of conditions. */
  function MissingIv(solve: IvCalculator.RootFinder, formula: IvCalculator.PriceFormula, q: Quote,
                     spots: map<string, real>, now: int): (iv: Option<real>)
    requires IvCalculator.StaysInBracket(solve)
    ensures HasQuotedIv(q) ==> iv.None?
    ensures iv.Some? ==> 0.1 <= iv.value <= 1000.0
  {
    if HasQuotedIv(q) then None
    else if !(TruthyReal(q.apy) && q.asset != "" && q.strike != 0.0 && q.expiry != "" && TruthyStr(q.optionType)) then None
    else if q.asset !in spots || spots[q.asset] == 0.0 then None
    else
      var dte := IvCalculator.ParseExpiryToDte(q.expiry, now);
      if dte.None? || dte.value == 0.0 || dte.value <= 0.0 then None
      else IvCalculator.ImpliedVolatilityFromApy(solve, formula, spots[q.asset], q.strike, dte.value,
                                                 q.apy.value, Lower(q.optionType.value) == "put",
                                                 IvCalculator.RiskFreeRate)
  }

  /** The tracker's checks and the calculator's own record checks agree on every unquoted record. */
  lemma MissingIvIsRecordIv(solve: IvCalculator.RootFinder, formula: IvCalculator.PriceFormula, q: Quote,
                            spots: map<string, real>, now: int)
    requires IvCalculator.StaysInBracket(solve)
    requires !HasQuotedIv(q)
    ensures MissingIv(solve, formula, q, spots, now)
            == IvCalculator.CalculateIvForRecord(solve, formula, q, spots, now, IvCalculator.RiskFreeRate)
  {
  }

  /** A record after `calculate_missing_iv` has looked at it. */
  function Backfilled(solve: IvCalculator.RootFinder, formula: IvCalculator.PriceFormula, q: Quote,
                      spots: map<string, real>, now: int): (r: Quote)
    requires IvCalculator.StaysInBracket(solve)
    ensures HasQuotedIv(q) ==> r == q
    ensures MissingIv(solve, formula, q, spots, now).None? ==> r == q
    ensures MissingIv(solve, formula, q, spots, now).Some? ==>
              r.ivCalculated && HasQuotedIv(r) && 0.1 <= r.bidIv.value <= 1000.0
              && r.bidIv == r.askIv == r.midIv == MissingIv(solve, formula, q, spots, now)
    ensures r.asset == q.asset && r.strike == q.strike && r.expiry == q.expiry
            && r.optionType == q.optionType && r.apy == q.apy
  {
    match MissingIv(solve, formula, q, spots, now)
    case Some(iv) => q.(bidIv := Some(iv), askIv := Some(iv), midIv := Some(iv), ivCalculated := true)
    case None => q
  }

  /** The loop body of `calculate_missing_iv` for one record. */
  method BackfillRecord(solve: IvCalculator.RootFinder, formula: IvCalculator.PriceFormula, q: Quote,
                        spots: map<string, real>, now: int) returns (r: Quote)
    requires IvCalculator.StaysInBracket(solve)
    ensures r == Backfilled(solve, formula, q, spots, now)
  {
    if HasQuotedIv(q) {
      return q;
    }
    var iv := MissingIv(solve, formula, q, spots, now);
    if iv.Some? && iv.value != 0.0 {
      r := q.(bidIv := iv, askIv := iv, midIv := iv, ivCalculated := true);
    } else {
      r := q;
    }
  }

  /** `calculate_missing_iv`: fills in, in place, the IV of records quoted without one. */
  method CalculateMissingIv(solve: IvCalculator.RootFinder, formula: IvCalculator.PriceFormula,
                            records: array<Quote>, spots: map<string, real>, now: int)
    requires IvCalculator.StaysInBracket(solve)
    modifies records
    ensures forall i :: 0 <= i < records.Length ==> records[i] == Backfilled(solve, formula, old(records[i]), spots, now)
  {
    ghost var original := records[..];
    for i := 0 to records.Length
      invariant forall k :: 0 <= k < i ==> records[k] == Backfilled(solve, formula, original[k], spots, now)
      invariant forall k :: i <= k < records.Length ==> records[k] == original[k]
    {
      var r := BackfillRecord(solve, formula, records[i], spots, now);
      records[i] := r;
    }
  }

  // ---------------------------------------------------------------------------
  // De-duplication
  // ---------------------------------------------------------------------------

  function KeySet(s: seq<Quote>): set<QuoteKey> {
    set q | q in s :: KeyOf(q)
  }

  predicate NoDuplicateKeys(s: seq<Quote>) {
    forall i, j :: 0 <= i < j < |s| ==> KeyOf(s[i]) != KeyOf(s[j])
  }

  /** No earlier record shares the key of `s[j]`. */
  predicate FirstOfItsKey(s: seq<Quote>, j: int)
    requires 0 <= j < |s|
  {
    forall m :: 0 <= m < j ==> KeyOf(s[m]) != KeyOf(s[j])
  }

  /** The records kept by `deduplicate_records`: each one whose key has not been seen before. */
  function FirstOccurrences(s: seq<Quote>): seq<Quote>
    decreases |s|
  {
    if s == [] then []
    else
      var init := s[..|s| - 1];
      var last := s[|s| - 1];
      FirstOccurrences(init) + (if KeyOf(last) in KeySet(init) then [] else [last])
  }

  lemma KeySetSnoc(s: seq<Quote>, q: Quote)
    ensures KeySet(s + [q]) == KeySet(s) + {KeyOf(q)}
  {
    assert forall x :: x in s + [q] <==> x in s || x == q;
  }

  /** The kept records carry every key once and only the keys of the input. */
  lemma {:induction false} FirstOccurrencesKeys(s: seq<Quote>)
    ensures NoDuplicateKeys(FirstOccurrences(s))
    ensures KeySet(FirstOccurrences(s)) == KeySet(s)
    decreases |s|
  {
    if s != [] {
      var init := s[..|s| - 1];
      var last := s[|s| - 1];
      FirstOccurrencesKeys(init);
      assert s == init + [last];
      KeySetSnoc(init, last);
      var u := FirstOccurrences(init);
      if KeyOf(last) !in KeySet(init) {
        KeySetSnoc(u, last);
        assert forall i :: 0 <= i < |u| ==> KeyOf(u[i]) in KeySet(u);
      }
    }
  }

  /** Every kept record is the first record of its key. */
  lemma {:induction false} FirstOccurrencesAreFirst(s: seq<Quote>, x: Quote)
    requires x in FirstOccurrences(s)
    ensures exists j :: 0 <= j < |s| && s[j] == x && FirstOfItsKey(s, j)
    decreases |s|
  {
    var init := s[..|s| - 1];
    var last := s[|s| - 1];
    if x in FirstOccurrences(init) {
      FirstOccurrencesAreFirst(init, x);
      var j :| 0 <= j < |init| && init[j] == x && FirstOfItsKey(init, j);
      assert s[j] == x && FirstOfItsKey(s, j);
    } else {
      assert x == last && KeyOf(last) !in KeySet(init);
      forall m | 0 <= m < |s| - 1
        ensures KeyOf(s[m]) != KeyOf(last)
      {
        assert init[m] in init;
      }
      assert FirstOfItsKey(s, |s| - 1);
    }
  }

  /** The first record of every key is kept. */
  lemma {:induction false} FirstOccurrencesKeepFirst(s: seq<Quote>, j: int)
    requires 0 <= j < |s| && FirstOfItsKey(s, j)
    ensures s[j] in FirstOccurrences(s)
    decreases |s|
  {
    var init := s[..|s| - 1];
    if j < |s| - 1 {
      assert FirstOfItsKey(init, j);
      FirstOccurrencesKeepFirst(init, j);
    } else {
      forall q | q in init
        ensures KeyOf(q) != KeyOf(s[j])
      {
        var m :| 0 <= m < |init| && init[m] == q;
        assert s[m] == q;
      }
    }
  }

  /** `deduplicate_records`: keeps the first record of each (asset, strike, expiry, option_type). */
  method DeduplicateRecords(records: seq<Quote>) returns (unique: seq<Quote>)
    ensures unique == FirstOccurrences(records)
    ensures NoDuplicateKeys(unique) && KeySet(unique) == KeySet(records)
    ensures |unique| <= |records|
  {
    var seen: set<QuoteKey> := {};
    unique := [];
    for i := 0 to |records|
      invariant seen == KeySet(records[..i])
      invariant unique == FirstOccurrences(records[..i])
      invariant |unique| <= i
    {
      var r := records[i];
      var key := KeyOf(r);
      assert records[..i + 1] == records[..i] + [r];
      KeySetSnoc(records[..i], r);
      if key !in seen {
        seen := seen + {key};
        unique := unique + [r];
      }
    }
    assert records[..|records|] == records;
    FirstOccurrencesKeys(records);
  }

  // ---------------------------------------------------------------------------
  // The parsing pipeline
  // ---------------------------------------------------------------------------

  /**
   * `parse_iv_data`: serverInventory records of the unescaped page, else the
   * raw-HTML fallback records (`rawRecords`, what `extract_iv_from_raw_html`
   * finds) when the raw page mentions serverInventory; then missing IVs are
   * derived at the page's spot prices (`spots`) and duplicates dropped.
   */
  method ParseIvData(solve: IvCalculator.RootFinder, formula: IvCalculator.PriceFormula,
                     html: string, findall: string -> seq<InventoryEntry>, rawRecords: seq<Quote>,
                     spots: map<string, real>, now: int) returns (result: seq<Quote>)
    requires IvCalculator.StaysInBracket(solve)
    ensures var page := Unescape(html);
      var fromInventory := if Contains(page, "serverInventory")
        then AllChunkRecords(page, SectionsOf(page), findall)
        else [];
      var found := if fromInventory == [] && Contains(html, "serverInventory") then rawRecords else fromInventory;
      result == FirstOccurrences(seq(|found|, i requires 0 <= i < |found| => Backfilled(solve, formula, found[i], spots, now)))
    ensures NoDuplicateKeys(result)
  {
    var page := Unescape(html);
    var records: seq<Quote> := [];
    if Contains(page, "serverInventory") {
      records := ExtractFromServerInventory(page, findall);
    }
    if records == [] && Contains(html, "serverInventory") {
      records := rawRecords;
    }
    var buffer := new Quote[|records|](i requires 0 <= i < |records| => records[i]);
    CalculateMissingIv(solve, formula, buffer, spots, now);
    assert buffer[..] == seq(|records|, i requires 0 <= i < |records| => Backfilled(solve, formula, records[i], spots, now));
    result := DeduplicateRecords(buffer[..]);
  }
}
