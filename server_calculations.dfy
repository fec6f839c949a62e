/** The server's copy of the gold pricing engine (`server/calculations.js`).
    Its records come from request bodies, so every field may be missing. It
    differs from the client's copy in three ways: no laser-cutting term, missing
    amounts count as 0 and the extra chain is never charged, and the solver's
    fallback price is rounded up as well. */
module ServerCalculations {
  import opened Wrappers
  import opened JsNumber
  import opened Types
  import opened PlatformOrder
  import Calculations

  /** A product as the server receives it; the laser fields are carried but unused. */
  datatype ServerProductInfo = ServerProductInfo(
    productGram: real,
    laborMillem: Option<real>,
    laserCuttingEnabled: Option<bool>,
    laserCuttingMillem: Option<real>)

  /** Expenses as the server receives them. */
  datatype ServerExpenses = ServerExpenses(
    shipping: Option<real>,
    packaging: Option<real>,
    eCommerceTaxRate: Option<real>,
    serviceFee: Option<real>,
    extraChain: Option<real>,
    specialPackaging: Option<real>)

  /** The server's result: the bank deposit is called `amountDepositedToBank`. */
  datatype ServerProfitResult = ServerProfitResult(
    platform: string,
    commissionRate: real,
    salePrice: real,
    commissionAmount: real,
    totalExpenses: real,
    amountDepositedToBank: real,
    netProfit: real,
    profitRate: Num)

  /** `calculatePureGoldGram`: labour millem `|| 0` plus the 14-karat fineness, times the weight. */
  function PureGoldGram(p: ServerProductInfo): (r: real)
    ensures p.laborMillem.None? || p.laborMillem.value == 0.0 ==> r == Calculations.Ayar14Millem * p.productGram
    ensures p.laborMillem.Some? ==> r == (p.laborMillem.value + Calculations.Ayar14Millem) * p.productGram
    ensures p.productGram >= 0.0 && OptOr(p.laborMillem, 0.0) >= 0.0 ==> r >= Calculations.Ayar14Millem * p.productGram
  {
    (OptOr(p.laborMillem, 0.0) + Calculations.Ayar14Millem) * p.productGram
  }

  /** The purchase price: pure-gold grams times the gold price. */
  function Purchase(p: ServerProductInfo, g: GoldInfo): real {
    PureGoldGram(p) * g.goldPrice
  }

  /** `expenses.eCommerceTaxRate || 1.0`. */
  function TaxRate(e: ServerExpenses): real {
    OptOr(e.eCommerceTaxRate, 1.0)
  }

  /** Shipping, packaging, service fee and special packaging, each `|| 0`; no extra chain. */
  function FixedExpenses(e: ServerExpenses): real {
    OptOr(e.shipping, 0.0) + OptOr(e.packaging, 0.0) + OptOr(e.serviceFee, 0.0) + OptOr(e.specialPackaging, 0.0)
  }

  /** The server's `calculateProfit`. */
  function Profit(p: ServerProductInfo, g: GoldInfo, e: ServerExpenses, pl: Platform): (r: ServerProfitResult)
    ensures r.platform == pl.name && r.commissionRate == pl.commissionRate && r.salePrice == pl.salePrice
    ensures r.commissionAmount * 100.0 == pl.salePrice * pl.commissionRate
    ensures r.totalExpenses == FixedExpenses(e) + pl.salePrice * TaxRate(e) / 100.0
    ensures r.netProfit == pl.salePrice - (Purchase(p, g) + r.totalExpenses + r.commissionAmount)
    ensures r.amountDepositedToBank
         == pl.salePrice - (r.commissionAmount + OptOr(e.shipping, 0.0) + pl.salePrice * TaxRate(e) / 100.0)
    ensures r.profitRate.Finite? <==> pl.salePrice != 0.0
    ensures r.profitRate.Finite? ==> r.profitRate.value * pl.salePrice == r.netProfit * 100.0
  {
    var purchasePrice := Purchase(p, g);
    var commissionAmount := (pl.salePrice * pl.commissionRate) / 100.0;
    var taxAmount := pl.salePrice * (TaxRate(e) / 100.0);
    var totalExpenses := OptOr(e.shipping, 0.0) + OptOr(e.packaging, 0.0) + taxAmount
                         + OptOr(e.serviceFee, 0.0) + OptOr(e.specialPackaging, 0.0);
    var netProfit := pl.salePrice - (purchasePrice + totalExpenses + commissionAmount);
    var deposit := pl.salePrice - (commissionAmount + OptOr(e.shipping, 0.0) + taxAmount);
    ServerProfitResult(pl.name, pl.commissionRate, pl.salePrice, commissionAmount, totalExpenses,
                       deposit, netProfit, Percent(netProfit, pl.salePrice))
  }

  /** The scenario names of a list of server results, in order. */
  function ResultNames(r: seq<ServerProfitResult>): (names: seq<string>)
    ensures |names| == |r| && forall i :: 0 <= i < |r| ==> names[i] == r[i].platform
  {
    seq(|r|, i requires 0 <= i < |r| => r[i].platform)
  }

  /** The server's `calculateAllPlatforms`: the same display order as the
      client's, then the server's breakdown of each scenario. */
  function AllPlatforms(p: ServerProductInfo, g: GoldInfo, e: ServerExpenses, platforms: seq<Platform>,
                        collate: (string, string) -> int): (r: seq<ServerProfitResult>)
    ensures |r| == |platforms|
    ensures exists order: seq<Platform> ::
              && multiset(order) == multiset(platforms) && |order| == |platforms|
              && forall i :: 0 <= i < |r| ==> r[i] == Profit(p, g, e, order[i])
    ensures (exists k :: 0 <= k < |platforms| && platforms[k].name == Standart) ==> r[0].platform == Standart
    ensures (forall i :: 0 <= i < |platforms| ==> Ranked(platforms[i].name)) ==> RankedInOrder(ResultNames(r))
  {
    var order := Sort(platforms, collate);
    SortGuarantees(platforms, collate);
    var r := seq(|order|, i requires 0 <= i < |order| => Profit(p, g, e, order[i]));
    assert forall i :: 0 <= i < |r| ==> r[i] == Profit(p, g, e, order[i]) && r[i].platform == order[i].name;
    assert ResultNames(r) == Names(order);
    r
  }

  function Denominator(e: ServerExpenses, commissionRate: real, targetProfitRate: real): real {
    1.0 - TaxRate(e) / 100.0 - commissionRate / 100.0 - targetProfitRate / 100.0
  }

  /** The server's `calculateStandardSalePrice`: always a whole number, the
      exact price or the 1.2 fallback rounded up. */
  function StandardSalePrice(p: ServerProductInfo, g: GoldInfo, e: ServerExpenses,
                             commissionRate: real, targetProfitRate: real): (r: int)
    ensures var d := Denominator(e, commissionRate, targetProfitRate);
            d > 0.0 ==> (Purchase(p, g) + FixedExpenses(e)) / d <= r as real < (Purchase(p, g) + FixedExpenses(e)) / d + 1.0
    ensures var fallback := p.productGram * g.goldPrice * 1.2;
            Denominator(e, commissionRate, targetProfitRate) <= 0.0 ==> fallback <= r as real < fallback + 1.0
  {
    var d := Denominator(e, commissionRate, targetProfitRate);
    if d <= 0.0 then Ceil(p.productGram * g.goldPrice * 1.2)
    else Ceil((Purchase(p, g) + FixedExpenses(e)) / d)
  }

  /** The laser-cutting fields never matter, and a missing labour millem
      counts as 0. */
  lemma {:induction false} LaserAndLaborIgnored(p: ServerProductInfo, q: ServerProductInfo, g: GoldInfo,
                                                e: ServerExpenses, pl: Platform, c: real, t: real)
    requires p.productGram == q.productGram
    requires p.laborMillem == q.laborMillem || (p.laborMillem.None? && q.laborMillem == Some(0.0))
    ensures Profit(p, g, e, pl) == Profit(q, g, e, pl)
    ensures StandardSalePrice(p, g, e, c, t) == StandardSalePrice(q, g, e, c, t)
  {
    assert OptOr(p.laborMillem, 0.0) == OptOr(q.laborMillem, 0.0);
    assert PureGoldGram(p) == PureGoldGram(q);
    assert Purchase(p, g) == Purchase(q, g);
  }

  /** A missing amount counts as 0, and the extra chain never enters a total. */
  lemma {:induction false} MissingExpensesAreZero(p: ServerProductInfo, g: GoldInfo, e: ServerExpenses,
                                                  pl: Platform, c: real, t: real, chain: Option<real>)
    ensures var z := ServerExpenses(Some(OptOr(e.shipping, 0.0)), Some(OptOr(e.packaging, 0.0)), e.eCommerceTaxRate,
                                    Some(OptOr(e.serviceFee, 0.0)), chain, Some(OptOr(e.specialPackaging, 0.0)));
            && Profit(p, g, e, pl) == Profit(p, g, z, pl)
            && StandardSalePrice(p, g, e, c, t) == StandardSalePrice(p, g, z, c, t)
  {
    var z := ServerExpenses(Some(OptOr(e.shipping, 0.0)), Some(OptOr(e.packaging, 0.0)), e.eCommerceTaxRate,
                            Some(OptOr(e.serviceFee, 0.0)), chain, Some(OptOr(e.specialPackaging, 0.0)));
    assert FixedExpenses(e) == FixedExpenses(z);
  }

  /** A missing or zero tax rate acts as 1.0, in the breakdown and in the solver. */
  lemma {:induction false} TaxRateFallback(p: ServerProductInfo, g: GoldInfo, e: ServerExpenses,
                                           pl: Platform, c: real, t: real)
    requires e.eCommerceTaxRate.None? || e.eCommerceTaxRate == Some(0.0)
    ensures Profit(p, g, e, pl) == Profit(p, g, e.(eCommerceTaxRate := Some(1.0)), pl)
    ensures StandardSalePrice(p, g, e, c, t) == StandardSalePrice(p, g, e.(eCommerceTaxRate := Some(1.0)), c, t)
  {
    assert TaxRate(e) == 1.0;
  }

  /** The server's record of the client's inputs. */
  function FromClient(p: ProductInfo): ServerProductInfo {
    ServerProductInfo(p.productGram, Some(p.laborMillem), Some(p.laserCuttingEnabled), Some(p.laserCuttingMillem))
  }

  function ExpensesFromClient(e: Expenses): ServerExpenses {
    ServerExpenses(Some(e.shipping), Some(e.packaging), Some(e.eCommerceTaxRate), Some(e.serviceFee),
                   Some(e.extraChain), Some(e.specialPackaging))
  }

  /** With laser cutting off and no extra chain, the two engines agree field by
      field (the bank deposit under its other name), and the two solvers agree
      whenever the rates leave a positive denominator. */
  lemma {:induction false} ServerMatchesClient(p: ProductInfo, g: GoldInfo, e: Expenses, pl: Platform, c: real, t: real)
    requires !p.laserCuttingEnabled && e.extraChain == 0.0
    ensures var s := Profit(FromClient(p), g, ExpensesFromClient(e), pl);
            var r := Calculations.Profit(p, g, e, pl);
            && s.platform == r.platform && s.commissionRate == r.commissionRate && s.salePrice == r.salePrice
            && s.commissionAmount == r.commissionAmount && s.totalExpenses == r.totalExpenses
            && s.netProfit == r.netProfit && s.profitRate == r.profitRate
            && s.amountDepositedToBank == r.bankayaYatan
    ensures Calculations.Denominator(e, c, t) > 0.0 ==>
              StandardSalePrice(FromClient(p), g, ExpensesFromClient(e), c, t) as real
              == Calculations.StandardSalePrice(p, g, e, c, t)
    ensures Calculations.Denominator(e, c, t) <= 0.0 ==>
              StandardSalePrice(FromClient(p), g, ExpensesFromClient(e), c, t)
              == Ceil(Calculations.StandardSalePrice(p, g, e, c, t))
  {
    var sp := FromClient(p);
    var se := ExpensesFromClient(e);
    assert PureGoldGram(sp) == Calculations.PureGoldGram(p);
    assert Purchase(sp, g) == Calculations.Purchase(p, g);
    assert TaxRate(se) == Calculations.TaxRate(e);
    assert FixedExpenses(se) == Calculations.FixedExpenses(e);
    assert Denominator(se, c, t) == Calculations.Denominator(e, c, t);
  }
}
