/** The silver calculator's state handling (`SilverCalculator.tsx`): the
    default and restored scenario lists, the restored silver prices, applying
    the settings dialog, the automatic re-pricing of "Standart" and "Astarlı
    Ürün", and the merge of server results with local ones. The silver solver
    and the silver results are not part of this model: they come in as
    parameters. */
module SilverCalculator {
  import opened Wrappers
  import opened JsNumber
  import opened Types
  import opened Scenarios
  import opened ResultMerge
  import ProfitCalculator

  const DefaultProductGram: real := 0.80
  const DefaultSilverPrice: real := 100.0
  const DefaultUsdTryRate: real := 35.0
  const DefaultProductAmount: real := 74.0
  const DefaultPurchasePrice: real := 91.5

  /** `getDefaultSilverPlatforms`: a single "Standart" (commission 22, target
      15) priced at 1.2 times weight times silver price, to the nearest whole number. */
  function DefaultSilverPlatforms(productGram: real, silverPrice: real): (r: seq<Platform>)
    ensures |r| == 1 && r[0].name == Standart && r[0].commissionRate == 22.0 && r[0].targetProfitRate == Some(15.0)
    ensures var x := productGram * silverPrice * 1.2;
            IsInteger(r[0].salePrice) && x - 0.5 < r[0].salePrice <= x + 0.5
  {
    var n := Round(productGram * silverPrice * 1.2);
    assert IsInteger(n as real);
    [Platform(Standart, 22.0, n as real, Some(15.0))]
  }

  /** The silver scenario list restored at start-up: a saved list with a
      "Standart" entry is kept as it is; otherwise the default list, priced
      from the saved weight and silver price when they were stored. No
      "Astarlı Ürün" entry is added. Without a saved list the defaults use
      the default weight and price. */
  function InitialSilverPlatforms(saved: Option<seq<Platform>>, savedGram: Option<real>, savedPrice: Option<real>)
    : (r: seq<Platform>)
    ensures HasName(r, Standart)
    ensures saved.Some? && HasName(saved.value, Standart) ==> r == saved.value
    ensures saved.None? ==> r == DefaultSilverPlatforms(DefaultProductGram, DefaultSilverPrice)
    ensures saved.Some? && !HasName(saved.value, Standart) ==>
              r == DefaultSilverPlatforms(savedGram.GetOr(DefaultProductGram), savedPrice.GetOr(DefaultSilverPrice))
  {
    match saved
    case None =>
      var d := DefaultSilverPlatforms(DefaultProductGram, DefaultSilverPrice);
      assert d[0].name == Standart;
      d
    case Some(parsed) =>
      if |parsed| == 0 || !HasName(parsed, Standart) then
        var d := DefaultSilverPlatforms(savedGram.GetOr(DefaultProductGram), savedPrice.GetOr(DefaultSilverPrice));
        assert d[0].name == Standart;
        d
      else parsed
  }

  /** A stored silver record: any field may be missing. */
  datatype StoredSilverInfo = StoredSilverInfo(
    silverPrice: Option<real>,
    usdTryRate: Option<real>,
    productAmount: Option<real>,
    purchasePrice: Option<real>)

  /** `{ ...defaultSilverInfo, ...parsed }`: each stored field wins over its
      default. */
  function InitialSilverInfo(saved: Option<StoredSilverInfo>): (r: SilverInfo)
    ensures saved.None? ==> r == SilverInfo(DefaultSilverPrice, DefaultUsdTryRate, DefaultProductAmount, DefaultPurchasePrice)
    ensures saved.Some? ==>
              && r.silverPrice == saved.value.silverPrice.GetOr(DefaultSilverPrice)
              && r.usdTryRate == saved.value.usdTryRate.GetOr(DefaultUsdTryRate)
              && r.productAmount == saved.value.productAmount.GetOr(DefaultProductAmount)
              && r.purchasePrice == saved.value.purchasePrice.GetOr(DefaultPurchasePrice)
  {
    match saved
    case None => SilverInfo(DefaultSilverPrice, DefaultUsdTryRate, DefaultProductAmount, DefaultPurchasePrice)
    case Some(p) =>
      SilverInfo(p.silverPrice.GetOr(DefaultSilverPrice), p.usdTryRate.GetOr(DefaultUsdTryRate),
                 p.productAmount.GetOr(DefaultProductAmount), p.purchasePrice.GetOr(DefaultPurchasePrice))
  }

  /** A complete stored record comes back unchanged. */
  lemma {:induction false} StoredSilverInfoRoundTrip(info: SilverInfo)
    ensures InitialSilverInfo(Some(StoredSilverInfo(Some(info.silverPrice), Some(info.usdTryRate),
                                                    Some(info.productAmount), Some(info.purchasePrice)))) == info
  {
  }

  /** The silver settings: the shared ones plus a silver price and a labour
      price in dollars, either of which may be missing. */
  datatype SilverSettings = SilverSettings(base: AppSettings, defaultSilverPrice: Option<real>, defaultLaborUsd: Option<real>)

  /** The state the silver settings dialog writes to. */
  datatype SilverState = SilverState(productInfo: SilverProductInfo, silverInfo: SilverInfo, expenses: Expenses,
                                     platforms: seq<Platform>)

  /** The silver `applySettingsToState`: weight from the settings, labour
      `|| 0.50`, silver price `|| 100`, the expenses as in the gold
      calculator, and the commission and targets of "Standart" and "Astarlı Ürün". */
  function ApplySilverSettings(st: SilverState, s: SilverSettings): (r: SilverState)
    ensures r.productInfo == st.productInfo.(productGram := s.base.defaultProductGram,
                                             laborUsd := OptOr(s.defaultLaborUsd, 0.50))
    ensures r.productInfo.laborUsd != 0.0
    ensures r.silverInfo == st.silverInfo.(silverPrice := OptOr(s.defaultSilverPrice, DefaultSilverPrice))
    ensures r.silverInfo.silverPrice != 0.0
    ensures r.expenses == ProfitCalculator.SettingsExpenses(st.expenses, s.base)
    ensures r.platforms == ApplyRates(st.platforms, s.base.defaultCommission, s.base.defaultStandardProfit,
                                      Some(s.base.defaultLinedProfit))
  {
    SilverState(
      st.productInfo.(productGram := s.base.defaultProductGram, laborUsd := OptOr(s.defaultLaborUsd, 0.50)),
      st.silverInfo.(silverPrice := OptOr(s.defaultSilverPrice, DefaultSilverPrice)),
      ProfitCalculator.SettingsExpenses(st.expenses, s.base),
      ApplyRates(st.platforms, s.base.defaultCommission, s.base.defaultStandardProfit, Some(s.base.defaultLinedProfit)))
  }

  /** Applying the same silver settings twice is applying them once when the
      default extra cost is not negative. */
  lemma {:induction false} ApplySilverSettingsIdempotent(st: SilverState, s: SilverSettings)
    requires s.base.defaultExtraCost >= 0.0
    ensures ApplySilverSettings(ApplySilverSettings(st, s), s) == ApplySilverSettings(st, s)
  {
    ProfitCalculator.SettingsExpensesIdempotent(st.expenses, s.base);
    ApplyRatesIdempotent(st.platforms, s.base.defaultCommission, s.base.defaultStandardProfit,
                         Some(s.base.defaultLinedProfit));
  }

  /** The silver calculator's automatic scenarios: their fallback targets come
      from the settings. */
  function SilverAutos(s: AppSettings): (autos: seq<AutoScenario>)
    ensures DistinctNames(autos)
  {
    [AutoScenario(Standart, s.defaultStandardProfit), AutoScenario(Astarli, s.defaultLinedProfit)]
  }

  /** `calculateSilverStandardSalePrice` with the product, prices and expenses
      fixed; the silver solver itself is a parameter. */
  function SilverSolver(silverSolve: (SilverProductInfo, SilverInfo, Expenses, real, real) -> real,
                        p: SilverProductInfo, si: SilverInfo, e: Expenses): (real, real) -> real {
    (c: real, t: real) => silverSolve(p, si, e, c, t)
  }

  /** The silver re-pricing effect: commission `|| 22`, targets `??` the
      settings' defaults. */
  method RefreshSilverPrices(prev: seq<Platform>, s: AppSettings,
                             silverSolve: (SilverProductInfo, SilverInfo, Expenses, real, real) -> real,
                             p: SilverProductInfo, si: SilverInfo, e: Expenses)
    returns (r: seq<Platform>, copied: bool)
    ensures r == RepricedList(prev, SilverAutos(s), 22.0, SilverSolver(silverSolve, p, si, e))
    ensures copied <==> exists k :: 0 <= k < 2 && NeedsReprice(prev, SilverAutos(s)[k], 22.0, SilverSolver(silverSolve, p, si, e))
    ensures !copied ==> r == prev
  {
    r, copied := RepriceAutos(prev, SilverAutos(s), 22.0, SilverSolver(silverSolve, p, si, e));
  }

  /** Refreshing twice is refreshing once, and a refreshed list holds no stale
      automatic price. */
  lemma {:induction false} SilverRefreshIdempotent(prev: seq<Platform>, s: AppSettings,
                                                   silverSolve: (SilverProductInfo, SilverInfo, Expenses, real, real) -> real,
                                                   p: SilverProductInfo, si: SilverInfo, e: Expenses)
    ensures var solve := SilverSolver(silverSolve, p, si, e);
            var r := RepricedList(prev, SilverAutos(s), 22.0, solve);
            RepricedList(r, SilverAutos(s), 22.0, solve) == r
  {
    RepriceIdempotent(prev, SilverAutos(s), 22.0, SilverSolver(silverSolve, p, si, e));
  }

  function ResultName(r: ProfitResult): string {
    r.platform
  }

  function ResultScore(r: ProfitResult): Option<real> {
    r.optimumScore
  }

  /** The merge in `handleCalculate`: each server result in its order, with
      its optimum score taken from the local result of the same name when that
      has one; no server results at all gives the local ones. */
  function MergeSilverResults(api: seq<ProfitResult>, local: seq<ProfitResult>): (r: seq<ProfitResult>)
    ensures api == [] ==> r == local
    ensures api != [] ==> |r| == |api|
    ensures api != [] ==> forall i :: 0 <= i < |api| ==> r[i] == api[i].(optimumScore := r[i].optimumScore)
    ensures api != [] ==> forall i :: 0 <= i < |api| ==>
              var j := FindIndex(local, ResultName, api[i].platform);
              r[i].optimumScore == if j >= 0 && local[j].optimumScore.Some? then local[j].optimumScore else api[i].optimumScore
  {
    var merged := seq(|api|, i requires 0 <= i < |api| =>
                    api[i].(optimumScore := MergedScore(local, ResultName, ResultScore, api[i].platform, api[i].optimumScore)));
    if |merged| > 0 then merged else local
  }

  /** When the server and the local calculation agree and the names are
      distinct, the merge gives the server's results back. */
  lemma {:induction false} MergeSilverWithSelf(rs: seq<ProfitResult>)
    requires rs != [] && UniqueNames(rs, ResultName)
    ensures MergeSilverResults(rs, rs) == rs
  {
    var r := MergeSilverResults(rs, rs);
    forall i | 0 <= i < |rs|
      ensures r[i] == rs[i]
    {
      MergedScoreOfSelf(rs, ResultName, ResultScore, i);
    }
  }
}
