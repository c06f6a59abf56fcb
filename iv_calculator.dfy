/**
 * Implied volatility from an advertised APY (iv_calculator.py).
 *
 * A covered call is collateralised by the spot price, a cash-secured put by
 * the strike, and the APY is the premium's yield on that collateral:
 * APY = premium / collateral * 365 / DTE. The volatility is the one at which
 * the Black-Scholes price equals that premium.
 *
 * The model has no exp, log, sqrt or normal CDF, so the closed-form
 * Black-Scholes price and Brent's root finder are parameters.
 */
module IvCalculator {
  import opened Wrappers
  import opened Strings
  import opened Calendar
  import opened Quotes

  /** The closed-form Black-Scholes price at (is_put, S, K, T, r, sigma), for T > 0 and sigma > 0. */
  type PriceFormula = (bool, real, real, real, real, real) -> real

  /** `brentq(f, lo, hi)`: a root of `f` in the bracket, or None where brentq raises. */
  type RootFinder = (real -> real, real, real) -> Option<real>

  /** brentq only ever answers with a point of the bracket it was given. */
  ghost predicate StaysInBracket(solve: RootFinder) {
    forall f, lo, hi :: solve(f, lo, hi).Some? ==> lo <= solve(f, lo, hi).value <= hi
  }

  /** brentq's answer is a root of the function it was given (its tolerance idealised away). */
  ghost predicate FindsRoots(solve: RootFinder) {
    forall f, lo, hi :: solve(f, lo, hi).Some? ==> f(solve(f, lo, hi).value) == 0.0
  }

  const RiskFreeRate: real := 0.05

  function BlackScholesCall(formula: PriceFormula, S: real, K: real, T: real, r: real, sigma: real): (price: real)
    ensures T <= 0.0 || sigma <= 0.0 ==> price >= 0.0 && price >= S - K && (price == 0.0 || price == S - K)
    ensures T > 0.0 && sigma > 0.0 ==> price == formula(false, S, K, T, r, sigma)
  {
    if T <= 0.0 || sigma <= 0.0 then Max(0.0, S - K) else formula(false, S, K, T, r, sigma)
  }

  function BlackScholesPut(formula: PriceFormula, S: real, K: real, T: real, r: real, sigma: real): (price: real)
    ensures T <= 0.0 || sigma <= 0.0 ==> price >= 0.0 && price >= K - S && (price == 0.0 || price == K - S)
    ensures T > 0.0 && sigma > 0.0 ==> price == formula(true, S, K, T, r, sigma)
  {
    if T <= 0.0 || sigma <= 0.0 then Max(0.0, K - S) else formula(true, S, K, T, r, sigma)
  }

  /**
   * Without time or volatility left, both prices are the intrinsic value:
   * never negative, and they satisfy put-call parity with no discounting.
   */
  lemma DegeneratePrices(formula: PriceFormula, S: real, K: real, T: real, r: real, sigma: real)
    requires T <= 0.0 || sigma <= 0.0
    ensures BlackScholesCall(formula, S, K, T, r, sigma) == Max(0.0, S - K)
    ensures BlackScholesPut(formula, S, K, T, r, sigma) == Max(0.0, K - S)
    ensures BlackScholesCall(formula, S, K, T, r, sigma) >= 0.0
    ensures BlackScholesPut(formula, S, K, T, r, sigma) >= 0.0
    ensures BlackScholesCall(formula, S, K, T, r, sigma) - BlackScholesPut(formula, S, K, T, r, sigma) == S - K
  {
  }

  /** `premium_from_apy`: the APY is a decimal fraction here. */
  function PremiumFromApy(apy: real, collateral: real, dte: real): real {
    apy * collateral * (dte / 365.0)
  }

  /** The premium recovers the APY it was computed from: APY = premium / collateral * 365 / DTE. */
  lemma PremiumApyRoundTrip(apy: real, collateral: real, dte: real)
    requires collateral > 0.0 && dte > 0.0
    ensures PremiumFromApy(apy, collateral, dte) / collateral * (365.0 / dte) == apy
  {
    var p := PremiumFromApy(apy, collateral, dte);
    assert p / collateral == apy * (dte / 365.0);
    assert (dte / 365.0) * (365.0 / dte) == 1.0;
  }

  /** A positive yield on positive collateral over a positive term is a positive premium. */
  lemma PremiumPositive(apy: real, collateral: real, dte: real)
    requires apy > 0.0 && collateral > 0.0 && dte > 0.0
    ensures PremiumFromApy(apy, collateral, dte) > 0.0
  {
    assert apy * collateral > 0.0;
  }

  /** Covered calls are collateralised by the spot, cash-secured puts by the strike. */
  function Collateral(spot: real, strike: real, isPut: bool): real {
    if isPut then strike else spot
  }

  /** The premium the APY (in percent) implies. */
  function TargetPremium(spot: real, strike: real, dte: real, apyPercent: real, isPut: bool): (p: real)
    ensures spot > 0.0 && strike > 0.0 && dte > 0.0 && apyPercent > 0.0 ==> p > 0.0
  {
    if spot > 0.0 && strike > 0.0 && dte > 0.0 && apyPercent > 0.0 then
      PremiumPositive(apyPercent / 100.0, Collateral(spot, strike, isPut), dte);
      PremiumFromApy(apyPercent / 100.0, Collateral(spot, strike, isPut), dte)
    else
      PremiumFromApy(apyPercent / 100.0, Collateral(spot, strike, isPut), dte)
  }

  function OptionPrice(formula: PriceFormula, isPut: bool, S: real, K: real, T: real, r: real, sigma: real): real {
    if isPut then BlackScholesPut(formula, S, K, T, r, sigma) else BlackScholesCall(formula, S, K, T, r, sigma)
  }

  /** `price_func(sigma) - target_premium`, the function whose root is the implied volatility. */
  function PremiumGap(formula: PriceFormula, spot: real, strike: real, dte: real, apyPercent: real,
                      isPut: bool, rate: real): real -> real
  {
    (sigma: real) => OptionPrice(formula, isPut, spot, strike, dte / 365.0, rate, sigma)
                     - TargetPremium(spot, strike, dte, apyPercent, isPut)
  }

  /** Brent's method on [0.01, 5.0], and on [0.001, 10.0] only if that raises. */
  function BracketedRoot(solve: RootFinder, f: real -> real): (sigma: Option<real>)
    requires StaysInBracket(solve)
    ensures solve(f, 0.01, 5.0).Some? ==> sigma == solve(f, 0.01, 5.0)
    ensures solve(f, 0.01, 5.0).None? ==> sigma == solve(f, 0.001, 10.0)
    ensures sigma.Some? ==> 0.001 <= sigma.value <= 10.0
  {
    match solve(f, 0.01, 5.0)
    case Some(v) => Some(v)
    case None => solve(f, 0.001, 10.0)
  }

  predicate ValidPricingInputs(spot: real, strike: real, dte: real, apyPercent: real) {
    dte > 0.0 && apyPercent > 0.0 && spot > 0.0 && strike > 0.0
  }

  /** `implied_volatility_from_apy`: the volatility, in percent, that prices the option at the APY's premium. */
  function ImpliedVolatilityFromApy(solve: RootFinder, formula: PriceFormula, spot: real, strike: real,
                                    dte: real, apyPercent: real, isPut: bool, rate: real): (iv: Option<real>)
    requires StaysInBracket(solve)
    ensures !ValidPricingInputs(spot, strike, dte, apyPercent) ==> iv.None?
    ensures ValidPricingInputs(spot, strike, dte, apyPercent) ==>
      var root := BracketedRoot(solve, PremiumGap(formula, spot, strike, dte, apyPercent, isPut, rate));
      (iv.Some? <==> root.Some?) && (iv.Some? ==> iv.value == root.value * 100.0)
    ensures iv.Some? ==> 0.1 <= iv.value <= 1000.0
  {
    if !ValidPricingInputs(spot, strike, dte, apyPercent) then None
    else
      match BracketedRoot(solve, PremiumGap(formula, spot, strike, dte, apyPercent, isPut, rate))
      case Some(sigma) => Some(sigma * 100.0)
      case None => None
  }

  /**
   * With a root finder that returns roots, a returned volatility reprices the
   * option to the target premium, whose yield on the collateral is the APY.
   */
  lemma ImpliedVolatilityReprices(solve: RootFinder, formula: PriceFormula, spot: real, strike: real,
                                  dte: real, apyPercent: real, isPut: bool, rate: real)
    requires StaysInBracket(solve) && FindsRoots(solve)
    requires ImpliedVolatilityFromApy(solve, formula, spot, strike, dte, apyPercent, isPut, rate).Some?
    ensures var sigma := ImpliedVolatilityFromApy(solve, formula, spot, strike, dte, apyPercent, isPut, rate).value / 100.0;
      var premium := OptionPrice(formula, isPut, spot, strike, dte / 365.0, rate, sigma);
      premium / Collateral(spot, strike, isPut) * (365.0 / dte) * 100.0 == apyPercent
  {
    var f := PremiumGap(formula, spot, strike, dte, apyPercent, isPut, rate);
    var root := BracketedRoot(solve, f);
    var iv := ImpliedVolatilityFromApy(solve, formula, spot, strike, dte, apyPercent, isPut, rate);
    assert iv.value / 100.0 == root.value;
    assert f(root.value) == 0.0;
    PremiumApyRoundTrip(apyPercent / 100.0, Collateral(spot, strike, isPut), dte);
  }

  /**
   * How many characters the `%d` directive takes from the front of `s`,
   * 0 if it cannot match. Its pattern tries `3[01]`, `[12]\d`, `0[1-9]`,
   * `[1-9]` and ` [1-9]` in that order; a two-digit match followed by a
   * digit can never be followed by a month name, so backtracking into the
   * one-digit alternative never rescues a match.
   */
  function DayFieldLength(s: string): (n: nat)
    ensures n <= 2 && n <= |s|
  {
    if |s| >= 2 && ((s[0] == '3' && (s[1] == '0' || s[1] == '1'))
                    || ((s[0] == '1' || s[0] == '2') && IsDigit(s[1]))
                    || (s[0] == '0' && '1' <= s[1] <= '9')) then 2
    else if |s| >= 1 && '1' <= s[0] <= '9' then 1
    else if |s| >= 2 && s[0] == ' ' && '1' <= s[1] <= '9' then 2
    else 0
  }

  /** The day number a matched `%d` field denotes (`int()` of it; a leading space is skipped). */
  function DayFieldValue(d: string): int
    requires 1 <= |d| <= 2 && IsDigit(d[|d| - 1])
  {
    if |d| == 1 || d[0] == ' ' then DigitValue(d[|d| - 1])
    else if IsDigit(d[0]) then 10 * DigitValue(d[0]) + DigitValue(d[1])
    else DigitValue(d[1])
  }

  /** `%y`: 69-99 are 1969-1999, 00-68 are 2000-2068. */
  function CenturyYear(yy: int): int {
    if yy <= 68 then 2000 + yy else 1900 + yy
  }

  /**
   * `datetime.strptime(s, '%d%b%y')`: a day of one or two digits (or a
   * space and a digit), a three-letter month abbreviation in any case and a
   * two-digit year, with nothing after it. None is the ValueError raised for
   * any other text or for a day the month does not have.
   */
  function StrptimeDayMonYear(s: string): (d: Option<Date>)
    ensures d.Some? ==> ValidDate(d.value) && 1969 <= d.value.year <= 2068
    ensures d.Some? ==> |s| == DayFieldLength(s) + 5
  {
    var k := DayFieldLength(s);
    if k == 0 || |s| != k + 5 then None
    else
      var month := MonthFromAbbrev(Upper(s[k..k + 3]));
      if month.None? || !IsDigit(s[k + 3]) || !IsDigit(s[k + 4]) then None
      else
        var date := Date(CenturyYear(10 * DigitValue(s[k + 3]) + DigitValue(s[k + 4])),
                         month.value, DayFieldValue(s[..k]));
        if ValidDate(date) then Some(date) else None
  }

  /**
   * The accepted shape, stated without the parser: a day field, a month
   * abbreviation and two year digits, and nothing else.
   */
  predicate DayMonYearShape(s: string) {
    ShapeWithDayLength(s, 1) || ShapeWithDayLength(s, 2)
  }

  predicate ShapeWithDayLength(s: string, k: nat)
    requires 1 <= k <= 2
  {
    |s| == k + 5
    && (if k == 1 then '1' <= s[0] <= '9' else (IsDigit(s[0]) || s[0] == ' ') && IsDigit(s[1]))
    && MonthFromAbbrev(Upper(s[k..k + 3])).Some?
    && IsDigit(s[k + 3]) && IsDigit(s[k + 4])
  }

  lemma StrptimeShape(s: string)
    requires StrptimeDayMonYear(s).Some?
    ensures DayMonYearShape(s)
  {
    var k := DayFieldLength(s);
    assert 1 <= k <= 2 && |s| == k + 5;
  }

  /** A date of the form in the docstring's examples is read as written. */
  lemma StrptimeReadsTwoDigitDay(s: string)
    requires |s| == 7 && IsDigit(s[0]) && IsDigit(s[1]) && IsDigit(s[5]) && IsDigit(s[6])
    requires 10 * DigitValue(s[0]) + DigitValue(s[1]) >= 1
    requires MonthFromAbbrev(Upper(s[2..5])).Some?
    requires ValidDate(Date(2000 + 10 * DigitValue(s[5]) + DigitValue(s[6]),
                            MonthFromAbbrev(Upper(s[2..5])).value,
                            10 * DigitValue(s[0]) + DigitValue(s[1])))
    requires 10 * DigitValue(s[5]) + DigitValue(s[6]) <= 68
    ensures StrptimeDayMonYear(s) == Some(Date(2000 + 10 * DigitValue(s[5]) + DigitValue(s[6]),
                                               MonthFromAbbrev(Upper(s[2..5])).value,
                                               10 * DigitValue(s[0]) + DigitValue(s[1])))
  {
    assert DayFieldLength(s) == 2;
    assert s[..2][1] == s[1];
  }

  /** Whole seconds from `now` to the start of `date`, as a (possibly negative) number of days. */
  function DaysUntil(date: Date, now: int): real
    requires ValidDate(date)
  {
    ((Midnight(date) - now) / MicrosPerSecond) as real / 86400.0
  }

  /** `parse_expiry_to_dte`: days from `now` (UTC) to the expiry's midnight, never negative. */
  function ParseExpiryToDte(expiry: string, now: int): (dte: Option<real>)
    ensures dte.None? <==> StrptimeDayMonYear(expiry).None?
    ensures dte.Some? ==> dte.value >= 0.0
    ensures dte.Some? ==> dte.value == Max(0.0, DaysUntil(StrptimeDayMonYear(expiry).value, now))
  {
    match StrptimeDayMonYear(expiry)
    case None => None
    case Some(date) => Some(Max(0.0, DaysUntil(date, now)))
  }

  /** `all([asset, strike, apy, option_type, expiry])` */
  predicate RecordComplete(q: Quote) {
    q.asset != "" && q.strike != 0.0 && TruthyReal(q.apy) && TruthyStr(q.optionType) && q.expiry != ""
  }

  /** `calculate_iv_for_record`: the IV a stored record's APY implies, at the spot price of its asset. */
  function CalculateIvForRecord(solve: RootFinder, formula: PriceFormula, q: Quote,
                                spots: map<string, real>, now: int, rate: real): (iv: Option<real>)
    requires StaysInBracket(solve)
    ensures !RecordComplete(q) ==> iv.None?
    ensures q.asset !in spots || spots[q.asset] == 0.0 ==> iv.None?
    ensures ParseExpiryToDte(q.expiry, now).None? || ParseExpiryToDte(q.expiry, now).value == 0.0 ==> iv.None?
    ensures iv.Some? ==> 0.1 <= iv.value <= 1000.0
    ensures iv.Some? ==> iv == ImpliedVolatilityFromApy(solve, formula, spots[q.asset], q.strike,
                                  ParseExpiryToDte(q.expiry, now).value, q.apy.value,
                                  Lower(q.optionType.value) == "put", rate)
    ensures RecordComplete(q) && q.asset in spots && spots[q.asset] != 0.0
            && ParseExpiryToDte(q.expiry, now).Some? && ParseExpiryToDte(q.expiry, now).value > 0.0 ==>
              iv == ImpliedVolatilityFromApy(solve, formula, spots[q.asset], q.strike,
                                             ParseExpiryToDte(q.expiry, now).value, q.apy.value,
                                             Lower(q.optionType.value) == "put", rate)
  {
    if !RecordComplete(q) then None
    else if q.asset !in spots || spots[q.asset] == 0.0 then None
    else
      var dte := ParseExpiryToDte(q.expiry, now);
      if dte.None? || dte.value <= 0.0 then None
      else ImpliedVolatilityFromApy(solve, formula, spots[q.asset], q.strike, dte.value, q.apy.value,
                                    Lower(q.optionType.value) == "put", rate)
  }
}
