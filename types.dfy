/** The records the calculators exchange: products, market prices, expenses,
    sale scenarios ("platforms") and their results. Amounts are exact reals. */
module Types {
  import opened Wrappers
  import opened JsNumber

  /** A gold product. `pureGoldGram` is a cached display value; the engine
      recomputes it. */
  datatype ProductInfo = ProductInfo(
    productGram: real,
    laborMillem: real,
    pureGoldGram: real,
    laserCuttingEnabled: bool,
    laserCuttingMillem: real)

  /** The gold price per gram, plus two cached display values. */
  datatype GoldInfo = GoldInfo(goldPrice: real, productAmount: real, purchasePrice: real)

  /** Per-sale costs; `eCommerceTaxRate` is a percentage of the sale price and
      `eCommerceTax` is an unused stored field. */
  datatype Expenses = Expenses(
    shipping: real,
    packaging: real,
    eCommerceTax: real,
    eCommerceTaxRate: real,
    serviceFee: real,
    extraChain: real,
    specialPackaging: real)

  /** A sale scenario: a name, a commission percentage, a sale price and an
      optional target profit percentage. The silver and wholesale platform
      records have the same shape. */
  datatype Platform = Platform(
    name: string,
    commissionRate: real,
    salePrice: real,
    targetProfitRate: Option<real>)

  type SilverPlatform = Platform
  type WholesalePlatform = Platform

  /** The result of one scenario. `profitRate` divides by the sale price, so it
      is not finite for a zero price. The silver result has the same shape. */
  datatype ProfitResult = ProfitResult(
    platform: string,
    commissionRate: real,
    salePrice: real,
    commissionAmount: real,
    totalExpenses: real,
    netProfit: real,
    profitRate: Num,
    bankayaYatan: real,
    optimumScore: Option<real>)

  type SilverResult = ProfitResult

  /** A named snapshot of results the user saved. */
  datatype SavedCalculation = SavedCalculation(
    id: string,
    name: string,
    createdAt: int,
    results: seq<ProfitResult>)

  datatype WholesaleInfo = WholesaleInfo(gram: real, goldPrice: real, purchasePrice: real)

  datatype WholesaleExpenses = WholesaleExpenses(commission: real, otherExpenses: real)

  /** A wholesale result: no bank-deposit figure. `purchasePrice` is carried
      along when the result comes with one. */
  datatype WholesaleResult = WholesaleResult(
    platform: string,
    commissionRate: real,
    salePrice: real,
    commissionAmount: real,
    totalExpenses: real,
    netProfit: real,
    profitRate: Num,
    optimumScore: Option<real>,
    purchasePrice: Option<real>)

  datatype SilverProductInfo = SilverProductInfo(
    productGram: real,
    laborUsd: real,
    pureSilverGram: real,
    laserCuttingEnabled: bool,
    laserCuttingUsd: real)

  datatype SilverInfo = SilverInfo(
    silverPrice: real,
    usdTryRate: real,
    productAmount: real,
    purchasePrice: real)

  type SilverExpenses = Expenses

  /** The settings dialog's values. */
  datatype AppSettings = AppSettings(
    defaultProductGram: real,
    defaultGoldPrice: real,
    defaultShipping: real,
    defaultPackaging: real,
    defaultServiceFee: real,
    defaultETaxRate: real,
    defaultCommission: real,
    defaultStandardProfit: real,
    defaultLinedProfit: real,
    defaultLaborMillem: real,
    defaultExtraCost: real)

  /** The sentinel scenario names. */
  const Standart: string := "Standart"
  const Astarli: string := "Astarlı Ürün"
}
