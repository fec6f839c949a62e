/** The client's gold pricing engine (`src/utils/calculations.ts`): pure-gold
    grams and purchase price of a 14-karat product, the profit breakdown of one
    sale scenario, the ordered breakdown of every scenario, and the solver for
    the sale price that reaches a target profit. No step rounds except the
    solver's final `Math.ceil`. */
module Calculations {
  import opened Wrappers
  import opened JsNumber
  import opened Types
  import opened PlatformOrder

  /** The fineness of 14-karat gold. */
  const Ayar14Millem: real := 0.585

  /** Labour millem plus the laser-cutting millem when laser cutting is on. */
  function TotalLaborMillem(p: ProductInfo): real {
    p.laborMillem + (if p.laserCuttingEnabled then p.laserCuttingMillem else 0.0)
  }

  /** `calculatePureGoldGram`: the laser millem counts only when laser cutting
      is on, and with non-negative millems the result is at least the
      14-karat gold content of the weight. */
  function PureGoldGram(p: ProductInfo): (r: real)
    ensures !p.laserCuttingEnabled ==> r == (p.laborMillem + Ayar14Millem) * p.productGram
    ensures p.laserCuttingEnabled ==> r == (p.laborMillem + Ayar14Millem) * p.productGram + p.laserCuttingMillem * p.productGram
    ensures p.productGram >= 0.0 && p.laborMillem >= 0.0 && p.laserCuttingMillem >= 0.0 ==> r >= Ayar14Millem * p.productGram
  {
    (TotalLaborMillem(p) + Ayar14Millem) * p.productGram
  }

  /** `calculateProductAmount`: the pure-gold grams valued at the gold price;
      never negative for non-negative inputs, and 0 when either is 0. */
  function ProductAmount(pureGoldGram: real, goldPrice: real): (r: real)
    ensures pureGoldGram >= 0.0 && goldPrice >= 0.0 ==> r >= 0.0
    ensures pureGoldGram == 0.0 || goldPrice == 0.0 ==> r == 0.0
    ensures pureGoldGram > 0.0 && goldPrice > 0.0 ==> r > 0.0
  {
    pureGoldGram * goldPrice
  }

  /** `calculatePurchasePrice`: the product amount; the other three
      arguments take no part. */
  function PurchasePrice(productAmount: real, productGram: real, laborMillem: real, goldPrice: real): (r: real)
    ensures r == productAmount
  {
    productAmount
  }

  /** The purchase price as `calculateProfit` and the solver compute it. */
  function Purchase(p: ProductInfo, g: GoldInfo): real {
    PurchasePrice(ProductAmount(PureGoldGram(p), g.goldPrice), p.productGram, TotalLaborMillem(p), g.goldPrice)
  }

  /** The purchase price is the pure-gold weight (labour, laser and the
      14-karat fineness) times the product weight times the gold price, and
      does not depend on the last three arguments of `calculatePurchasePrice`. */
  lemma {:induction false} PurchaseFormula(p: ProductInfo, g: GoldInfo, gram: real, labor: real, price: real)
    ensures Purchase(p, g)
         == (p.laborMillem + (if p.laserCuttingEnabled then p.laserCuttingMillem else 0.0) + 0.585)
            * p.productGram * g.goldPrice
    ensures PurchasePrice(Purchase(p, g), gram, labor, price) == Purchase(p, g)
  {
  }

  /** `expenses.eCommerceTaxRate || 1.00`: the withholding-tax percentage. */
  function TaxRate(e: Expenses): real {
    Or(e.eCommerceTaxRate, 1.0)
  }

  /** The solver's fixed costs: everything but the tax, which depends on the price. */
  function FixedExpenses(e: Expenses): real {
    e.shipping + e.packaging + e.serviceFee + e.extraChain + e.specialPackaging
  }

  /** `calculateProfit`: the breakdown of one sale scenario. */
  function Profit(p: ProductInfo, g: GoldInfo, e: Expenses, pl: Platform): (r: ProfitResult)
    ensures r.platform == pl.name && r.commissionRate == pl.commissionRate && r.salePrice == pl.salePrice
    ensures r.commissionAmount * 100.0 == pl.salePrice * pl.commissionRate
    ensures r.totalExpenses == FixedExpenses(e) + pl.salePrice * TaxRate(e) / 100.0
    ensures r.netProfit == pl.salePrice - (Purchase(p, g) + r.totalExpenses + r.commissionAmount)
    ensures r.bankayaYatan - r.netProfit
         == Purchase(p, g) + e.packaging + e.serviceFee + e.extraChain + e.specialPackaging
    ensures r.profitRate.Finite? <==> pl.salePrice != 0.0
    ensures r.profitRate.Finite? ==> r.profitRate.value * pl.salePrice == r.netProfit * 100.0
    ensures r.optimumScore.None?
  {
    var purchasePrice := Purchase(p, g);
    var commissionAmount := (pl.salePrice * pl.commissionRate) / 100.0;
    var taxAmount := pl.salePrice * (TaxRate(e) / 100.0);
    var totalExpenses := e.shipping + e.packaging + taxAmount + e.serviceFee + e.extraChain + e.specialPackaging;
    var netProfit := pl.salePrice - (purchasePrice + totalExpenses + commissionAmount);
    var bankayaYatan := pl.salePrice - (commissionAmount + e.shipping + taxAmount);
    ProfitResult(pl.name, pl.commissionRate, pl.salePrice, commissionAmount, totalExpenses,
                 netProfit, Percent(netProfit, pl.salePrice), bankayaYatan, None)
  }

  /** With no negative fee and no negative weight, millem or price, the bank
      deposit is at least the net profit. */
  lemma {:induction false} DepositCoversProfit(p: ProductInfo, g: GoldInfo, e: Expenses, pl: Platform)
    requires p.productGram >= 0.0 && p.laborMillem >= 0.0 && p.laserCuttingMillem >= 0.0 && g.goldPrice >= 0.0
    requires e.packaging >= 0.0 && e.serviceFee >= 0.0 && e.extraChain >= 0.0 && e.specialPackaging >= 0.0
    ensures Profit(p, g, e, pl).bankayaYatan >= Profit(p, g, e, pl).netProfit
  {
    var m := TotalLaborMillem(p) + Ayar14Millem;
    assert m >= 0.0;
    assert m * p.productGram >= 0.0;
    assert Purchase(p, g) == (m * p.productGram) * g.goldPrice;
  }

  /** The scenario names of a list of results, in order. */
  function ResultNames(r: seq<ProfitResult>): (names: seq<string>)
    ensures |names| == |r| && forall i :: 0 <= i < |r| ==> names[i] == r[i].platform
  {
    seq(|r|, i requires 0 <= i < |r| => r[i].platform)
  }

  /** `calculateAllPlatforms`: the breakdown of every scenario, in display order. */
  function AllPlatforms(p: ProductInfo, g: GoldInfo, e: Expenses, platforms: seq<Platform>,
                        collate: (string, string) -> int): (r: seq<ProfitResult>)
    ensures |r| == |platforms|
    ensures exists order: seq<Platform> ::
              && multiset(order) == multiset(platforms) && |order| == |platforms|
              && forall i :: 0 <= i < |r| ==> r[i] == Profit(p, g, e, order[i])
    ensures (exists k :: 0 <= k < |platforms| && platforms[k].name == Standart) ==> r[0].platform == Standart
    ensures (forall i :: 0 <= i < |platforms| ==> Ranked(platforms[i].name)) ==> RankedInOrder(ResultNames(r))
  {
    var order := Sort(platforms, collate);
    SortGuarantees(platforms, collate);
    var r := seq(|order|, i requires 0 <= i < |order| => Profit(p, g, e, order[i]));
    assert forall i :: 0 <= i < |r| ==> r[i] == Profit(p, g, e, order[i]) && r[i].platform == order[i].name;
    assert ResultNames(r) == Names(order);
    r
  }

  /** `1 - tax% - commission% - target%`: the share of the price left to
      cover the purchase and the fixed costs. */
  function Denominator(e: Expenses, commissionRate: real, targetProfitRate: real): real {
    1.0 - TaxRate(e) / 100.0 - commissionRate / 100.0 - targetProfitRate / 100.0
  }

  /** The exact price that would meet the target: (purchase + fixed costs) / denominator. */
  function ExactSalePrice(p: ProductInfo, g: GoldInfo, e: Expenses, commissionRate: real, targetProfitRate: real): real
    requires Denominator(e, commissionRate, targetProfitRate) > 0.0
  {
    (Purchase(p, g) + FixedExpenses(e)) / Denominator(e, commissionRate, targetProfitRate)
  }

  /** `calculateStandardSalePrice` (the callers pass commission and target
      explicitly): the exact price rounded up to a whole number, or, when the
      rates leave nothing, 1.2 times weight times gold price, not rounded. */
  function StandardSalePrice(p: ProductInfo, g: GoldInfo, e: Expenses, commissionRate: real, targetProfitRate: real): (r: real)
    ensures Denominator(e, commissionRate, targetProfitRate) > 0.0 ==>
              && IsInteger(r)
              && ExactSalePrice(p, g, e, commissionRate, targetProfitRate) <= r
              && r < ExactSalePrice(p, g, e, commissionRate, targetProfitRate) + 1.0
    ensures Denominator(e, commissionRate, targetProfitRate) <= 0.0 ==>
              r == p.productGram * g.goldPrice * 1.2
  {
    var d := Denominator(e, commissionRate, targetProfitRate);
    if d <= 0.0 then p.productGram * g.goldPrice * 1.2
    else Ceil((Purchase(p, g) + FixedExpenses(e)) / d) as real
  }

  /** The fallback price is not rounded: one gram at a price of 1 gives 1.2. */
  lemma {:induction false} FallbackIsNotRounded()
    ensures var p := ProductInfo(1.0, 0.0, 0.0, false, 0.0);
            var g := GoldInfo(1.0, 0.0, 0.0);
            var e := Expenses(0.0, 0.0, 0.0, 0.0, 0.0, 0.0, 0.0);
            Denominator(e, 50.0, 50.0) <= 0.0 && !IsInteger(StandardSalePrice(p, g, e, 50.0, 50.0))
  {
    assert (1.2).Floor == 1;
  }

  /** A tax rate of 0 acts exactly as 1.00, in the breakdown and in the solver. */
  lemma {:induction false} ZeroTaxRateIsOne(p: ProductInfo, g: GoldInfo, e: Expenses, pl: Platform, c: real, t: real)
    requires e.eCommerceTaxRate == 0.0
    ensures Profit(p, g, e, pl) == Profit(p, g, e.(eCommerceTaxRate := 1.0), pl)
    ensures StandardSalePrice(p, g, e, c, t) == StandardSalePrice(p, g, e.(eCommerceTaxRate := 1.0), c, t)
  {
  }

  /** A price that pays the purchase, the fixed costs, the tax, the commission
      and the target share reaches the target profit rate. */
  lemma {:induction false} PriceMeetsTarget(x: real, s: real, d: real, tax: real, c: real, t: real)
    requires d == 1.0 - tax / 100.0 - c / 100.0 - t / 100.0 && d > 0.0
    requires x > 0.0 && s >= x / d
    ensures s > 0.0
    ensures (s - (x + s * tax / 100.0 + s * c / 100.0)) * 100.0 >= s * t
  {
    assert x / d > 0.0;
    assert s * d >= x by {
      assert (x / d) * d == x;
    }
    assert s - (x + s * tax / 100.0 + s * c / 100.0) == s * d - x + s * t / 100.0;
  }

  /** The solver and the breakdown agree: selling at the solver's price with
      the same commission gives at least the target profit rate, as long as
      the purchase and the fixed costs are positive. */
  lemma {:induction false} SalePriceRoundTrip(p: ProductInfo, g: GoldInfo, e: Expenses, name: string,
                                              c: real, t: real, target: Option<real>)
    requires Denominator(e, c, t) > 0.0
    requires Purchase(p, g) + FixedExpenses(e) > 0.0
    ensures var r := Profit(p, g, e, Platform(name, c, StandardSalePrice(p, g, e, c, t), target));
            r.profitRate.Finite? && r.profitRate.value >= t
  {
    var s := StandardSalePrice(p, g, e, c, t);
    var x := Purchase(p, g) + FixedExpenses(e);
    var d := Denominator(e, c, t);
    PriceMeetsTarget(x, s, d, TaxRate(e), c, t);
    var r := Profit(p, g, e, Platform(name, c, s, target));
    assert r.netProfit == s - (x + s * TaxRate(e) / 100.0 + s * c / 100.0);
    var v := r.profitRate.value;
    assert v * s == r.netProfit * 100.0;
    assert (v - t) * s >= 0.0;
  }

  /** At the same price, a scenario without commission earns at least the
      profit rate of one with a non-negative commission. */
  lemma {:induction false} NoCommissionEarnsMore(p: ProductInfo, g: GoldInfo, e: Expenses, name: string,
                                                 s: real, c: real, target: Option<real>)
    requires s > 0.0 && c >= 0.0
    ensures var r0 := Profit(p, g, e, Platform(name, 0.0, s, target));
            var rc := Profit(p, g, e, Platform(name, c, s, target));
            r0.profitRate.Finite? && rc.profitRate.Finite? && r0.profitRate.value >= rc.profitRate.value
  {
    var r0 := Profit(p, g, e, Platform(name, 0.0, s, target));
    var rc := Profit(p, g, e, Platform(name, c, s, target));
    assert r0.commissionAmount == 0.0;
    assert r0.totalExpenses == rc.totalExpenses;
    assert r0.netProfit - rc.netProfit == rc.commissionAmount;
    assert rc.commissionAmount >= 0.0;
    var v0, vc := r0.profitRate.value, rc.profitRate.value;
    assert (v0 - vc) * s == (r0.netProfit - rc.netProfit) * 100.0;
  }
}
