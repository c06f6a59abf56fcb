/**
 * The serverless API (api/index.py): who may trigger a fetch, how the
 * latest snapshot is annotated with its percentile against the last week,
 * how records are built from the scraped page, and the Newton iteration
 * that turns an APY into an implied volatility.
 */
module Api {
  import opened Wrappers
  import opened Strings
  import opened Calendar
  import opened Sorting
  import opened Grouping
  import opened Filtering
  import opened Stats
  import opened Quotes
  import IvCalculator
  import Tracker

  // ---------------------------------------------------------------------------
  // Authorisation
  // ---------------------------------------------------------------------------

  /**
   * `cron_fetch`: with no secret configured everyone is let in; otherwise the
   * caller must present `Bearer <secret>` or the scheduler's `x-vercel-cron: 1`.
   * `vercelCron` is the header's value, None when it is absent.
   */
  function CronAuthorized(secret: string, authorization: string, vercelCron: Option<string>): (ok: bool)
    ensures ok <==> secret == "" || authorization == "Bearer " + secret || vercelCron == Some("1")
  {
    if secret != "" && authorization != "Bearer " + secret then vercelCron == Some("1") else true
  }

  /** `manual_fetch`: the same check without the scheduler's exemption. */
  function ManualAuthorized(secret: string, authorization: string): (ok: bool)
    ensures ok <==> secret == "" || authorization == "Bearer " + secret
  {
    !(secret != "" && authorization != "Bearer " + secret)
  }

  /** A caller admitted to the manual endpoint is admitted to the cron endpoint, whatever its headers. */
  lemma ManualAdmitsToCron(secret: string, authorization: string, vercelCron: Option<string>)
    requires ManualAuthorized(secret, authorization)
    ensures CronAuthorized(secret, authorization, vercelCron)
  {
  }

  /** The scheduler's header opens the cron endpoint only: with a secret set and a wrong token, manual fetches stay closed. */
  lemma SchedulerHeaderOnlyOpensCron(secret: string, authorization: string)
    requires secret != "" && authorization != "Bearer " + secret
    ensures CronAuthorized(secret, authorization, Some("1"))
    ensures !ManualAuthorized(secret, authorization)
    ensures !CronAuthorized(secret, authorization, None)
  {
  }

  // ---------------------------------------------------------------------------
  // Percentile and pricing of the latest snapshot
  // ---------------------------------------------------------------------------

  /** (asset, strike, expiry): the key of the IV history. */
  datatype IvKey = IvKey(asset: string, strike: real, expiry: string)

  /** A row of the latest-snapshot query; the other columns are passed through unchanged. */
  datatype LatestRow = LatestRow(asset: string, strike: real, expiry: string, midIv: Option<real>)

  /** A row of last week's history; the query keeps only rows with a mid IV. */
  datatype HistoryRow = HistoryRow(asset: string, strike: real, expiry: string, midIv: real)

  datatype Pricing = Expensive | Cheap | Fair

  /** A row with `iv_percentile`, `pricing`, `iv_min` and `iv_max` set. */
  datatype AnnotatedRow = AnnotatedRow(row: LatestRow, ivPercentile: Option<real>, pricing: Option<Pricing>,
                                       ivMin: Option<real>, ivMax: Option<real>)

  /** At least 75 is EXPENSIVE, at most 25 is CHEAP, anything between is FAIR. */
  function Classify(percentile: real): (p: Pricing)
    ensures p == Expensive <==> percentile >= 75.0
    ensures p == Cheap <==> percentile <= 25.0
    ensures p == Fair <==> 25.0 < percentile < 75.0
  {
    if percentile >= 75.0 then Expensive
    else if percentile <= 25.0 then Cheap
    else Fair
  }

  function RowKey(r: LatestRow): IvKey {
    IvKey(r.asset, r.strike, r.expiry)
  }

  /** The pairs `iv_history` is built from, in query order. */
  function HistoryItems(history: seq<HistoryRow>): (items: seq<(IvKey, real)>)
    ensures |items| == |history|
    ensures forall i :: 0 <= i < |history| ==>
              items[i] == (IvKey(history[i].asset, history[i].strike, history[i].expiry), history[i].midIv)
  {
    seq(|history|, i requires 0 <= i < |history| =>
      (IvKey(history[i].asset, history[i].strike, history[i].expiry), history[i].midIv))
  }

  /**
   * One row of `api_latest`'s result. The percentile is taken over the
   * sorted history, which counts the same values as the history itself.
   */
  function Annotate(row: LatestRow, hist: seq<real>): (a: AnnotatedRow)
    ensures a.row == row
    ensures a.ivPercentile.Some? <==> TruthyReal(row.midIv) && |hist| >= 3
    ensures a.pricing.Some? == a.ivPercentile.Some? && a.ivMin.Some? == a.ivPercentile.Some?
            && a.ivMax.Some? == a.ivPercentile.Some?
    ensures a.ivPercentile.Some? ==>
              a.ivPercentile.value == Round(PercentBelow(hist, row.midIv.value), 1)
              && 0.0 <= a.ivPercentile.value <= 100.0
              && a.pricing.value == Classify(PercentBelow(hist, row.midIv.value))
    ensures a.ivPercentile.Some? ==>
              a.ivMin.value == Round(MinOf(hist), 2) && a.ivMax.value == Round(MaxOf(hist), 2)
              && a.ivMin.value <= a.ivMax.value
  {
    if TruthyReal(row.midIv) && |hist| >= 3 then
      var sortedHist := SortBy(hist, RealLe);
      var current := row.midIv.value;
      var percentile := CountBelow(sortedHist, current) as real / |sortedHist| as real * 100.0;
      CountBelowPermutation(sortedHist, hist, current);
      assert percentile == PercentBelow(hist, current);
      RoundPercent(percentile, 1);
      assert MinOf(hist) <= MaxOf(hist) by {
        assert hist[0] in hist;
      }
      RoundMonotone(MinOf(hist), MaxOf(hist), 2);
      AnnotatedRow(row, Some(Round(percentile, 1)), Some(Classify(percentile)),
                   Some(Round(MinOf(hist), 2)), Some(Round(MaxOf(hist), 2)))
    else
      AnnotatedRow(row, None, None, None, None)
  }

  /** `api_latest` after its two queries: each latest row annotated against its key's history. */
  method AnnotateLatest(rows: seq<LatestRow>, history: seq<HistoryRow>) returns (results: seq<AnnotatedRow>)
    ensures |results| == |rows|
    ensures forall i :: 0 <= i < |rows| ==>
              results[i] == Annotate(rows[i], ValuesFor(HistoryItems(history), RowKey(rows[i])))
  {
    var items := HistoryItems(history);
    var ivHistory := GroupBy(items);
    results := [];
    for i := 0 to |rows|
      invariant |results| == i
      invariant forall k :: 0 <= k < i ==>
                  results[k] == Annotate(rows[k], ValuesFor(items, RowKey(rows[k])))
    {
      var r := rows[i];
      var hist := Lookup(ivHistory, RowKey(r));
      GroupItemsLookup(items, RowKey(r));
      results := results + [Annotate(r, hist)];
    }
  }

  // ---------------------------------------------------------------------------
  // IV from APY by Newton's method
  // ---------------------------------------------------------------------------

  /** Vega of the Black-Scholes price at (S, K, T, r, sigma). */
  type VegaFormula = (real, real, real, real, real) -> real

  const RiskFreeRate: real := 0.05
  const NewtonIterations: nat := 100

  /** What the iteration solves: the premium to match, its tolerance and the option's inputs. */
  datatype NewtonProblem = NewtonProblem(isPut: bool, spot: real, strike: real, t: real, premium: real, tol: real)

  /** Where the iteration stopped, whether it converged there, and how many passes of the loop it made. */
  datatype NewtonResult = NewtonResult(sigma: real, converged: bool, steps: nat)

  /** The price minus the target premium at `sigma`. */
  function Gap(formula: IvCalculator.PriceFormula, p: NewtonProblem, sigma: real): real {
    formula(p.isPut, p.spot, p.strike, p.t, RiskFreeRate, sigma) - p.premium
  }

  /** The clamped Newton step `max(0.01, min(5.0, sigma - diff / vega))`. */
  function NextSigma(sigma: real, diff: real, v: real): (next: real)
    requires v > 0.0
    ensures 0.01 <= next <= 5.0
  {
    Clamp(sigma - diff / v)
  }

  /** `max(0.01, min(5.0, sigma))` */
  function Clamp(sigma: real): (c: real)
    ensures 0.01 <= c <= 5.0
    ensures 0.01 <= sigma <= 5.0 ==> c == sigma
  {
    Max(0.01, Min(5.0, sigma))
  }

  /**
   * At most `fuel` Newton steps from `sigma`: stop with convergence once the
   * gap is under the tolerance, stop without it when vega is below a
   * hundredth of the tolerance, otherwise take a clamped Newton step.
   */
  function NewtonSearch(formula: IvCalculator.PriceFormula, vega: VegaFormula, p: NewtonProblem,
                        sigma: real, fuel: nat): (r: NewtonResult)
    requires p.tol > 0.0
    ensures r.steps <= fuel
    ensures 0.01 <= sigma <= 5.0 ==> 0.01 <= r.sigma <= 5.0
    decreases fuel
  {
    if fuel == 0 then NewtonResult(sigma, false, 0)
    else
      var diff := Gap(formula, p, sigma);
      if Abs(diff) < p.tol then NewtonResult(sigma, true, 1)
      else
        var v := vega(p.spot, p.strike, p.t, RiskFreeRate, sigma);
        if v < p.tol * 0.01 then NewtonResult(sigma, false, 1)
        else
          var r := NewtonSearch(formula, vega, p, NextSigma(sigma, diff, v), fuel - 1);
          r.(steps := r.steps + 1)
  }

  /** Whole days to the expiry's midnight, at least 1: `max(1, (expiry_date - now).days)`. */
  function ApyDte(date: Date, now: int): (dte: int)
    requires ValidDate(date)
    ensures dte >= 1
    ensures dte >= WholeDays(Midnight(date) - now)
  {
    MaxInt(1, WholeDays(Midnight(date) - now))
  }

  /**
   * The Newton problem `calculate_iv_from_apy` sets up for `dte` days: the
   * same premium the APY implies in the IV calculator, and a tolerance of a
   * thousandth of it but never below 1e-7.
   */
  function ApyProblem(spot: real, strike: real, dte: int, apy: real, isPut: bool): (p: NewtonProblem)
    requires dte >= 1
    ensures p.isPut == isPut && p.spot == spot && p.strike == strike
    ensures p.t == dte as real / 365.0 && p.t > 0.0
    ensures p.premium == IvCalculator.TargetPremium(spot, strike, dte as real, apy, isPut)
    ensures p.tol == Max(0.0000001, p.premium * 0.001) && p.tol > 0.0
  {
    var premium := (apy / 100.0) * IvCalculator.Collateral(spot, strike, isPut) * (dte as real / 365.0);
    NewtonProblem(isPut, spot, strike, dte as real / 365.0, premium, Max(0.0000001, premium * 0.001))
  }

  /**
   * `calculate_iv_from_apy` once the expiry has parsed to `date`: None when an
   * input is not positive, when the iteration does not converge, or when it
   * converges outside 0.05 < sigma < 4.0; otherwise sigma in percent.
   */
  function IvAtExpiry(formula: IvCalculator.PriceFormula, vega: VegaFormula, spot: real, strike: real,
                      date: Date, apy: real, isPut: bool, now: int): (iv: Option<real>)
    requires ValidDate(date)
    ensures apy <= 0.0 || spot <= 0.0 || strike <= 0.0 ==> iv.None?
    ensures iv.Some? ==> 5.0 < iv.value < 400.0
  {
    var dte := MaxInt(1, WholeDays(Midnight(date) - now));
    if dte <= 0 || apy <= 0.0 || spot <= 0.0 || strike <= 0.0 then None
    else
      var p := ApyProblem(spot, strike, dte, apy, isPut);
      var r := NewtonSearch(formula, vega, p, 0.5, NewtonIterations);
      if r.converged && 0.05 < r.sigma < 4.0 then Some(r.sigma * 100.0) else None
  }

  /** A returned IV prices the option at the APY's premium, within the tolerance. */
  lemma IvAtExpiryReprices(formula: IvCalculator.PriceFormula, vega: VegaFormula, spot: real, strike: real,
                           date: Date, apy: real, isPut: bool, now: int)
    requires ValidDate(date)
    requires IvAtExpiry(formula, vega, spot, strike, date, apy, isPut, now).Some?
    ensures var p := ApyProblem(spot, strike, ApyDte(date, now), apy, isPut);
            var iv := IvAtExpiry(formula, vega, spot, strike, date, apy, isPut, now);
            Abs(Gap(formula, p, iv.value / 100.0)) < p.tol
  {
    var p := ApyProblem(spot, strike, ApyDte(date, now), apy, isPut);
    var r := NewtonSearch(formula, vega, p, 0.5, NewtonIterations);
    NewtonConvergedWithinTolerance(formula, vega, p, 0.5, NewtonIterations);
    assert r.sigma * 100.0 / 100.0 == r.sigma;
  }

  /** `calculate_iv_from_apy`: None as well when the expiry is not in `%d%b%y` form. */
  function ApyIv(formula: IvCalculator.PriceFormula, vega: VegaFormula, spot: real, strike: real,
                 expiry: string, apy: real, isPut: bool, now: int): (iv: Option<real>)
    ensures IvCalculator.StrptimeDayMonYear(expiry).None? ==> iv.None?
    ensures apy <= 0.0 || spot <= 0.0 || strike <= 0.0 ==> iv.None?
    ensures iv.Some? ==> 5.0 < iv.value < 400.0
    ensures IvCalculator.StrptimeDayMonYear(expiry).Some? ==>
              iv == IvAtExpiry(formula, vega, spot, strike, IvCalculator.StrptimeDayMonYear(expiry).value,
                               apy, isPut, now)
  {
    match IvCalculator.StrptimeDayMonYear(expiry)
    case None => None
    case Some(date) => IvAtExpiry(formula, vega, spot, strike, date, apy, isPut, now)
  }

  /** The two statements of the loop that move sigma. */
  method NewtonUpdate(sigma: real, diff: real, v: real) returns (next: real)
    requires v > 0.0
    ensures next == NextSigma(sigma, diff, v)
  {
    next := sigma - diff / v;
    next := Max(0.01, Min(5.0, next));
  }

  /** The Newton loop of `calculate_iv_from_apy`, from sigma = 0.5 for at most 100 passes. */
  method NewtonLoop(formula: IvCalculator.PriceFormula, vega: VegaFormula, p: NewtonProblem)
    returns (sigma: real, converged: bool)
    requires p.tol > 0.0
    ensures var r := NewtonSearch(formula, vega, p, 0.5, NewtonIterations);
            sigma == r.sigma && converged == r.converged
  {
    var isPut, spot, strike, t, premium, tol := p.isPut, p.spot, p.strike, p.t, p.premium, p.tol;
    sigma := 0.5;
    converged := false;
    for i := 0 to NewtonIterations
      invariant !converged
      invariant var r := NewtonSearch(formula, vega, p, 0.5, NewtonIterations);
                var rest := NewtonSearch(formula, vega, p, sigma, NewtonIterations - i);
                r.sigma == rest.sigma && r.converged == rest.converged
    {
      var price := formula(isPut, spot, strike, t, RiskFreeRate, sigma);
      var diff := price - premium;
      if Abs(diff) < tol {
        converged := true;
        break;
      }
      var v := vega(spot, strike, t, RiskFreeRate, sigma);
      if v < tol * 0.01 {
        break;
      }
      ghost var current := sigma;
      assert diff == Gap(formula, p, current);
      assert v == vega(p.spot, p.strike, p.t, RiskFreeRate, current);
      sigma := NewtonUpdate(sigma, diff, v);
      NewtonStep(formula, vega, p, current, sigma, NewtonIterations - i, NewtonIterations - (i + 1));
    }
  }

  /** A search that reports convergence made at least one pass and stopped where the gap is under the tolerance. */
  lemma {:induction false} NewtonConvergedWithinTolerance(formula: IvCalculator.PriceFormula, vega: VegaFormula,
                                                          p: NewtonProblem, sigma: real, fuel: nat)
    requires p.tol > 0.0
    ensures var r := NewtonSearch(formula, vega, p, sigma, fuel);
            r.converged ==> 0 < r.steps && Abs(Gap(formula, p, r.sigma)) < p.tol
    decreases fuel
  {
    if fuel > 0 {
      var diff := Gap(formula, p, sigma);
      var v := vega(p.spot, p.strike, p.t, RiskFreeRate, sigma);
      if Abs(diff) >= p.tol && v >= p.tol * 0.01 {
        NewtonConvergedWithinTolerance(formula, vega, p, NextSigma(sigma, diff, v), fuel - 1);
      }
    }
  }

  /** A search that ends unconverged before its last pass ended there because vega was too flat to step. */
  lemma {:induction false} NewtonGivesUpOnFlatVega(formula: IvCalculator.PriceFormula, vega: VegaFormula,
                                                   p: NewtonProblem, sigma: real, fuel: nat)
    requires p.tol > 0.0
    ensures var r := NewtonSearch(formula, vega, p, sigma, fuel);
            !r.converged && r.steps < fuel ==>
              Abs(Gap(formula, p, r.sigma)) >= p.tol && vega(p.spot, p.strike, p.t, RiskFreeRate, r.sigma) < p.tol * 0.01
    decreases fuel
  {
    if fuel > 0 {
      var diff := Gap(formula, p, sigma);
      var v := vega(p.spot, p.strike, p.t, RiskFreeRate, sigma);
      if Abs(diff) >= p.tol && v >= p.tol * 0.01 {
        NewtonGivesUpOnFlatVega(formula, vega, p, NextSigma(sigma, diff, v), fuel - 1);
      }
    }
  }

  /** One pass of the loop that neither converges nor gives up moves to the clamped Newton step. */
  lemma NewtonStep(formula: IvCalculator.PriceFormula, vega: VegaFormula, p: NewtonProblem,
                   sigma: real, next: real, fuel: nat, rest: nat)
    requires p.tol > 0.0 && fuel > 0 && rest == fuel - 1
    requires Abs(Gap(formula, p, sigma)) >= p.tol
    requires vega(p.spot, p.strike, p.t, RiskFreeRate, sigma) >= p.tol * 0.01
    requires next == NextSigma(sigma, Gap(formula, p, sigma), vega(p.spot, p.strike, p.t, RiskFreeRate, sigma))
    ensures NewtonSearch(formula, vega, p, sigma, fuel).sigma == NewtonSearch(formula, vega, p, next, rest).sigma
    ensures NewtonSearch(formula, vega, p, sigma, fuel).converged == NewtonSearch(formula, vega, p, next, rest).converged
  {
  }

  /** With positive inputs, the IV is the Newton search's answer when it lies in the accepted band. */
  lemma IvAtExpiryUnfold(formula: IvCalculator.PriceFormula, vega: VegaFormula, spot: real, strike: real,
                           date: Date, apy: real, isPut: bool, now: int)
    requires ValidDate(date)
    requires apy > 0.0 && spot > 0.0 && strike > 0.0
    ensures var r := NewtonSearch(formula, vega, ApyProblem(spot, strike, ApyDte(date, now), apy, isPut), 0.5, NewtonIterations);
            IvAtExpiry(formula, vega, spot, strike, date, apy, isPut, now)
            == if r.converged && 0.05 < r.sigma < 4.0 then Some(r.sigma * 100.0) else None
  {
  }

  /** The time, premium and tolerance `calculate_iv_from_apy` computes before its loop. */
  method SetUpNewton(spot: real, strike: real, dte: int, apy: real, isPut: bool) returns (p: NewtonProblem)
    requires dte >= 1
    ensures p == ApyProblem(spot, strike, dte, apy, isPut)
  {
    var t := dte as real / 365.0;
    var collateral := if isPut then strike else spot;
    var premium := (apy / 100.0) * collateral * (dte as real / 365.0);
    var tol := Max(0.0000001, premium * 0.001);
    p := NewtonProblem(isPut, spot, strike, t, premium, tol);
  }

  /** `calculate_iv_from_apy` after the expiry has parsed. */
  method CalculateIvAtExpiry(formula: IvCalculator.PriceFormula, vega: VegaFormula, spot: real, strike: real,
                             date: Date, apy: real, isPut: bool, now: int) returns (iv: Option<real>)
    requires ValidDate(date)
    ensures iv == IvAtExpiry(formula, vega, spot, strike, date, apy, isPut, now)
  {
    var dte := MaxInt(1, WholeDays(Midnight(date) - now));
    if dte <= 0 || apy <= 0.0 || spot <= 0.0 || strike <= 0.0 {
      return None;
    }
    assert dte == ApyDte(date, now);
    var p := SetUpNewton(spot, strike, dte, apy, isPut);
    var sigma, converged := NewtonLoop(formula, vega, p);
    IvAtExpiryUnfold(formula, vega, spot, strike, date, apy, isPut, now);
    if converged && 0.05 < sigma < 4.0 {
      iv := Some(sigma * 100.0);
    } else {
      iv := None;
    }
  }

  /** `calculate_iv_from_apy`, `now` being `datetime.utcnow()`. */
  method CalculateIvFromApy(formula: IvCalculator.PriceFormula, vega: VegaFormula, spot: real, strike: real,
                            expiry: string, apy: real, isPut: bool, now: int) returns (iv: Option<real>)
    ensures iv == ApyIv(formula, vega, spot, strike, expiry, apy, isPut, now)
  {
    var parsed := IvCalculator.StrptimeDayMonYear(expiry);
    if parsed.None? {
      return None;
    }
    iv := CalculateIvAtExpiry(formula, vega, spot, strike, parsed.value, apy, isPut, now);
  }

  // ---------------------------------------------------------------------------
  // Records of `fetch_iv_data`
  // ---------------------------------------------------------------------------

  /**
   * The record for one entry of an asset's section. A zero bid with a
   * positive APY is replaced, on both sides, by the IV the APY implies at
   * the asset's spot price, when there is one and the IV is found.
   */
  function FetchRecord(formula: IvCalculator.PriceFormula, vega: VegaFormula, asset: string,
                       e: Tracker.InventoryEntry, spots: map<string, real>, now: int): (q: Quote)
    ensures q.asset == asset && q.strike == e.strike && q.expiry == e.expiry && !q.ivCalculated
    ensures q.optionType == Some(if e.isPut == "true" then "put" else "call")
    ensures q.apy == Tracker.PositiveOrNone(e.apy)
    ensures q.midIv.Some? <==> q.bidIv.Some?
    ensures !(e.bidIv == 0.0 && e.apy > 0.0 && asset in spots && spots[asset] != 0.0) ==>
              q.bidIv == Tracker.PositiveOrNone(e.bidIv) && q.askIv == Tracker.PositiveOrNone(e.askIv)
    ensures e.bidIv == 0.0 && e.apy > 0.0 && asset in spots && spots[asset] != 0.0
            && !TruthyReal(ApyIv(formula, vega, spots[asset], e.strike, e.expiry, e.apy, e.isPut == "true", now)) ==>
              q.bidIv == None && q.askIv == Tracker.PositiveOrNone(e.askIv)
    ensures e.bidIv == 0.0 && e.apy > 0.0 && asset in spots && spots[asset] != 0.0
            && TruthyReal(ApyIv(formula, vega, spots[asset], e.strike, e.expiry, e.apy, e.isPut == "true", now)) ==>
              var iv := ApyIv(formula, vega, spots[asset], e.strike, e.expiry, e.apy, e.isPut == "true", now);
              q.bidIv == iv && q.askIv == iv && q.midIv == iv
    ensures q.midIv.Some? && q.bidIv == Tracker.PositiveOrNone(e.bidIv) ==> q.midIv.value == (e.bidIv + e.askIv) / 2.0
  {
    var derived := DerivedIv(formula, vega, asset, e, spots, now);
    if derived.Some? then EntryQuote(asset, e, derived.value, derived.value)
    else EntryQuote(asset, e, e.bidIv, e.askIv)
  }

  /** The IV derived from the APY of a zero-bid entry, when there is a non-zero one. */
  function DerivedIv(formula: IvCalculator.PriceFormula, vega: VegaFormula, asset: string,
                     e: Tracker.InventoryEntry, spots: map<string, real>, now: int): Option<real> {
    var computed := if e.bidIv == 0.0 && e.apy > 0.0 && asset in spots && spots[asset] != 0.0
                    then ApyIv(formula, vega, spots[asset], e.strike, e.expiry, e.apy, e.isPut == "true", now)
                    else None;
    if TruthyReal(computed) then computed else None
  }

  /** The record dict of one entry with the given bid and ask IVs. */
  function EntryQuote(asset: string, e: Tracker.InventoryEntry, bid: real, ask: real): Quote {
    Quote(asset, e.strike, e.expiry, Some(if e.isPut == "true" then "put" else "call"),
          Tracker.PositiveOrNone(bid), Tracker.PositiveOrNone(ask),
          if bid > 0.0 then Some((bid + ask) / 2.0) else None,
          Tracker.PositiveOrNone(e.apy), false)
  }

  /** A zero-bid entry whose APY yields an IV gets that IV as bid, ask and mid. */
  lemma DerivedIvFillsBothSides(formula: IvCalculator.PriceFormula, vega: VegaFormula, asset: string,
                                e: Tracker.InventoryEntry, spots: map<string, real>, now: int)
    requires e.bidIv == 0.0 && e.apy > 0.0 && asset in spots && spots[asset] != 0.0
    requires ApyIv(formula, vega, spots[asset], e.strike, e.expiry, e.apy, e.isPut == "true", now).Some?
    ensures var iv := ApyIv(formula, vega, spots[asset], e.strike, e.expiry, e.apy, e.isPut == "true", now);
            var q := FetchRecord(formula, vega, asset, e, spots, now);
            q.bidIv == iv && q.askIv == iv && q.midIv == iv
  {
  }

  /** `r.get('mid_iv') or r.get('apy')` */
  predicate WorthKeeping(q: Quote) {
    TruthyReal(q.midIv) || TruthyReal(q.apy)
  }

  function SectionFetchRecords(formula: IvCalculator.PriceFormula, vega: VegaFormula, html: string,
                               c: Tracker.Chunk, findall: string -> seq<Tracker.InventoryEntry>,
                               spots: map<string, real>, now: int): seq<Quote> {
    var entries := findall(Slice(html, c.start, c.end));
    seq(|entries|, j requires 0 <= j < |entries| => FetchRecord(formula, vega, c.asset, entries[j], spots, now))
  }

  function AllFetchRecords(formula: IvCalculator.PriceFormula, vega: VegaFormula, html: string,
                           chunks: seq<Tracker.Chunk>, findall: string -> seq<Tracker.InventoryEntry>,
                           spots: map<string, real>, now: int): seq<Quote>
    decreases |chunks|
  {
    if chunks == [] then []
    else AllFetchRecords(formula, vega, html, chunks[..|chunks| - 1], findall, spots, now)
         + SectionFetchRecords(formula, vega, html, chunks[|chunks| - 1], findall, spots, now)
  }

  /** Every record built comes from a tracked asset's section. */
  lemma {:induction false} AllFetchRecordsAssets(formula: IvCalculator.PriceFormula, vega: VegaFormula, html: string,
                                                 chunks: seq<Tracker.Chunk>, findall: string -> seq<Tracker.InventoryEntry>,
                                                 spots: map<string, real>, now: int)
    requires forall i :: 0 <= i < |chunks| ==> chunks[i].asset in Tracker.TrackedAssets
    ensures forall q :: q in AllFetchRecords(formula, vega, html, chunks, findall, spots, now) ==>
              q.asset in Tracker.TrackedAssets
    decreases |chunks|
  {
    if chunks != [] {
      AllFetchRecordsAssets(formula, vega, html, chunks[..|chunks| - 1], findall, spots, now);
    }
  }

  /** The loop body of the section walk: one inventory entry's record. */
  method EntryRecord(formula: IvCalculator.PriceFormula, vega: VegaFormula, asset: string,
                     e: Tracker.InventoryEntry, spots: map<string, real>, now: int) returns (q: Quote)
    ensures q == FetchRecord(formula, vega, asset, e, spots, now)
  {
    var bid := e.bidIv;
    var ask := e.askIv;
    if bid == 0.0 && e.apy > 0.0 {
      if asset in spots && spots[asset] != 0.0 {
        var computed := CalculateIvFromApy(formula, vega, spots[asset], e.strike, e.expiry, e.apy, e.isPut == "true", now);
        if TruthyReal(computed) {
          bid := computed.value;
          ask := computed.value;
        }
      }
    }
    q := EntryQuote(asset, e, bid, ask);
  }

  /** The records of one section; the APY derivation runs through the Newton loop. */
  method FetchSection(formula: IvCalculator.PriceFormula, vega: VegaFormula, html: string,
                      c: Tracker.Chunk, findall: string -> seq<Tracker.InventoryEntry>,
                      spots: map<string, real>, now: int) returns (fromChunk: seq<Quote>)
    ensures fromChunk == SectionFetchRecords(formula, vega, html, c, findall, spots, now)
  {
    var entries := findall(Slice(html, c.start, c.end));
    fromChunk := [];
    for j := 0 to |entries|
      invariant |fromChunk| == j
      invariant forall k :: 0 <= k < j ==> fromChunk[k] == FetchRecord(formula, vega, c.asset, entries[k], spots, now)
    {
      var q := EntryRecord(formula, vega, c.asset, entries[j], spots, now);
      fromChunk := fromChunk + [q];
    }
  }

  /** Every section's records, section after section. */
  method FetchAllSections(formula: IvCalculator.PriceFormula, vega: VegaFormula, html: string,
                          chunks: seq<Tracker.Chunk>, findall: string -> seq<Tracker.InventoryEntry>,
                          spots: map<string, real>, now: int) returns (records: seq<Quote>)
    ensures records == AllFetchRecords(formula, vega, html, chunks, findall, spots, now)
  {
    records := [];
    for i := 0 to |chunks|
      invariant records == AllFetchRecords(formula, vega, html, chunks[..i], findall, spots, now)
    {
      var fromChunk := FetchSection(formula, vega, html, chunks[i], findall, spots, now);
      records := records + fromChunk;
      assert chunks[..i + 1][..i] == chunks[..i];
    }
    assert chunks[..|chunks|] == chunks;
  }

  /**
   * `fetch_iv_data` after the page request: unescape the page, cut it into
   * asset sections, build a record per entry and keep those with a mid IV or an APY.
   */
  method FetchIvData(formula: IvCalculator.PriceFormula, vega: VegaFormula, response: string,
                     findall: string -> seq<Tracker.InventoryEntry>, spots: map<string, real>, now: int)
    returns (records: seq<Quote>)
    ensures var html := Tracker.Unescape(response);
            records == Filter(AllFetchRecords(formula, vega, html, Tracker.SectionsOf(html), findall, spots, now), WorthKeeping)
    ensures forall q :: q in records ==> WorthKeeping(q) && q.asset in Tracker.TrackedAssets
  {
    var html := Tracker.Unescape(response);
    var chunks := Tracker.AssetChunks(html);
    var all := FetchAllSections(formula, vega, html, chunks, findall, spots, now);
    records := Filter(all, WorthKeeping);
    AllFetchRecordsAssets(formula, vega, html, chunks, findall, spots, now);
  }
}
