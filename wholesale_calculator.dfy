/** The wholesale calculator (`WholesaleCalculator.tsx`): the default and
    restored scenario lists, the automatic re-pricing of "Standart", applying
    the settings dialog, editing, adding and removing scenarios, the merge of
    server results with local ones, and the conversion of a result for the
    results table. The wholesale solver and the wholesale results are not
    part of this model: they come in as parameters. */
module WholesaleCalculator {
  import opened Wrappers
  import opened JsNumber
  import opened Types
  import opened ScenarioNames
  import opened Scenarios
  import opened ResultMerge

  const DefaultGram: real := 100.0
  const DefaultGoldPrice: real := 5900.0

  /** The price of a new default "Standart": weight times gold price times
      1.07, to the nearest whole number. */
  function DefaultWholesalePrice(gram: real, goldPrice: real): (r: real)
    ensures var x := gram * goldPrice * 1.07;
            IsInteger(r) && x - 0.5 < r <= x + 0.5
  {
    var n := Round(gram * goldPrice * 1.07);
    assert IsInteger(n as real);
    n as real
  }

  /** `getDefaultPlatforms`: a single "Standart" with commission 2, target 5
      and the default wholesale price. */
  function DefaultWholesalePlatforms(gram: real, goldPrice: real): (r: seq<Platform>)
    ensures |r| == 1 && r[0].name == Standart && r[0].commissionRate == 2.0 && r[0].targetProfitRate == Some(5.0)
    ensures r[0].salePrice == DefaultWholesalePrice(gram, goldPrice)
  {
    [Platform(Standart, 2.0, DefaultWholesalePrice(gram, goldPrice), Some(5.0))]
  }

  /** The wholesale scenario list restored at start-up: a saved list with a
      "Standart" entry is kept as it is; a saved list without one is replaced
      by the defaults priced from the restored weight and gold price; without
      a saved list the defaults use 100 g and 5900. */
  function InitialWholesalePlatforms(saved: Option<seq<Platform>>, gram: real, goldPrice: real): (r: seq<Platform>)
    ensures HasName(r, Standart)
    ensures saved.Some? && HasName(saved.value, Standart) ==> r == saved.value
    ensures saved.Some? && !HasName(saved.value, Standart) ==> r == DefaultWholesalePlatforms(gram, goldPrice)
    ensures saved.None? ==> r == DefaultWholesalePlatforms(DefaultGram, DefaultGoldPrice)
  {
    match saved
    case None =>
      var d := DefaultWholesalePlatforms(DefaultGram, DefaultGoldPrice);
      assert d[0].name == Standart;
      d
    case Some(parsed) =>
      if |parsed| == 0 || !HasName(parsed, Standart) then
        var d := DefaultWholesalePlatforms(gram, goldPrice);
        assert d[0].name == Standart;
        d
      else parsed
  }

  /** The wholesale calculator's only automatic scenario. */
  const WholesaleAutos: seq<AutoScenario> := [AutoScenario(Standart, 5.0)]

  /** `calculateWholesaleStandardSalePrice` with the wholesale record and
      expenses fixed; the wholesale solver itself is a parameter. */
  function WholesaleSolver(wholesaleSolve: (WholesaleInfo, WholesaleExpenses, real, real) -> real,
                           info: WholesaleInfo, e: WholesaleExpenses): (real, real) -> real {
    (c: real, t: real) => wholesaleSolve(info, e, c, t)
  }

  /** The wholesale re-pricing effect: "Standart" only, commission `|| 2`,
      target `?? 5`. */
  method RefreshWholesalePrices(prev: seq<Platform>,
                                wholesaleSolve: (WholesaleInfo, WholesaleExpenses, real, real) -> real,
                                info: WholesaleInfo, e: WholesaleExpenses)
    returns (r: seq<Platform>, copied: bool)
    ensures r == RepricedList(prev, WholesaleAutos, 2.0, WholesaleSolver(wholesaleSolve, info, e))
    ensures copied <==> NeedsReprice(prev, WholesaleAutos[0], 2.0, WholesaleSolver(wholesaleSolve, info, e))
    ensures !copied ==> r == prev
  {
    r, copied := RepriceAutos(prev, WholesaleAutos, 2.0, WholesaleSolver(wholesaleSolve, info, e));
  }

  /** Refreshing twice is refreshing once, and a refreshed list holds no stale
      "Standart" price. */
  lemma {:induction false} WholesaleRefreshIdempotent(prev: seq<Platform>,
                                                      wholesaleSolve: (WholesaleInfo, WholesaleExpenses, real, real) -> real,
                                                      info: WholesaleInfo, e: WholesaleExpenses)
    ensures var solve := WholesaleSolver(wholesaleSolve, info, e);
            var r := RepricedList(prev, WholesaleAutos, 2.0, solve);
            && !NeedsReprice(r, WholesaleAutos[0], 2.0, solve)
            && RepricedList(r, WholesaleAutos, 2.0, solve) == r
  {
    RepriceIdempotent(prev, WholesaleAutos, 2.0, WholesaleSolver(wholesaleSolve, info, e));
  }

  /** The state the wholesale settings dialog writes to. */
  datatype WholesaleState = WholesaleState(info: WholesaleInfo, expenses: WholesaleExpenses, platforms: seq<Platform>)

  /** `handleSaveSettings`: applied at once, it takes the gold price from the
      settings, clears both expenses and gives every "Standart" commission 2
      and target 5 (the settings' own commission and targets are not used);
      otherwise the state stays as it is. */
  function ApplyWholesaleSettings(st: WholesaleState, s: AppSettings, applyNow: bool): (r: WholesaleState)
    ensures !applyNow ==> r == st
    ensures applyNow ==> r.info == st.info.(goldPrice := s.defaultGoldPrice)
    ensures applyNow ==> r.expenses == WholesaleExpenses(0.0, 0.0)
    ensures applyNow ==> r.platforms == ApplyRates(st.platforms, 2.0, 5.0, None)
  {
    if !applyNow then st
    else WholesaleState(st.info.(goldPrice := s.defaultGoldPrice), WholesaleExpenses(0.0, 0.0),
                        ApplyRates(st.platforms, 2.0, 5.0, None))
  }

  /** Applying the settings twice is applying them once, and it leaves every
      scenario but "Standart" untouched. */
  lemma {:induction false} ApplyWholesaleSettingsIdempotent(st: WholesaleState, s: AppSettings)
    ensures var r := ApplyWholesaleSettings(st, s, true);
            && ApplyWholesaleSettings(r, s, true) == r
            && forall i :: 0 <= i < |st.platforms| && st.platforms[i].name != Standart ==> r.platforms[i] == st.platforms[i]
  {
    ApplyRatesIdempotent(st.platforms, 2.0, 5.0, None);
  }

  /** `updatePlatform`: the entry at `index` gets the one field; a new target
      on "Standart" also re-prices it with the wholesale solver at its
      commission `|| 2`. */
  method WholesaleUpdatePlatform(platforms: seq<Platform>, index: nat, edit: PlatformEdit, solve: (real, real) -> real)
    returns (r: seq<Platform>)
    requires index < |platforms|
    ensures |r| == |platforms|
    ensures var p := platforms[index];
            && (!(p.name == Standart && edit.SetTarget?) ==> r[index] == Edited(p, edit))
            && (p.name == Standart && edit.SetTarget? ==>
                  r[index] == p.(targetProfitRate := Some(edit.target),
                                 salePrice := solve(Or(p.commissionRate, 2.0), edit.target)))
    ensures forall i :: 0 <= i < |platforms| && i != index ==> r[i] == platforms[i]
  {
    r := UpdateAutoPlatform(platforms, index, edit, [Standart], 2.0, solve);
  }

  /** `addPlatform`: a new "Senaryo k" with commission 2 and no target,
      priced at the rounded "Standart" price, or at the default wholesale
      price when there is no "Standart". */
  function WholesaleAddPlatform(platforms: seq<Platform>, info: WholesaleInfo): (r: seq<Platform>)
    ensures |r| == |platforms| + 1 && r[..|platforms|] == platforms
    ensures var added := r[|platforms|];
            && added.commissionRate == 2.0 && added.targetProfitRate.None?
            && ScenarioNumber(added.name) == Some(NextNumber(platforms))
            && !HasName(platforms, added.name) && IsInteger(added.salePrice)
    ensures HasName(platforms, Standart) ==>
              r[|platforms|].salePrice == Round(platforms[FirstIndex(platforms, Standart)].salePrice) as real
    ensures !HasName(platforms, Standart) ==> r[|platforms|].salePrice == DefaultWholesalePrice(info.gram, info.goldPrice)
  {
    var d := DefaultWholesalePrice(info.gram, info.goldPrice);
    RoundOfInteger(d.Floor);
    AddPricedScenario(platforms, 2.0, d)
  }

  /** `removePlatform`: any entry may go; a list left empty becomes the
      default list for the current weight and gold price. */
  function WholesaleRemovePlatform(platforms: seq<Platform>, index: int, info: WholesaleInfo): (r: seq<Platform>)
    ensures |r| >= 1
    ensures 0 <= index < |platforms| && |platforms| > 1 ==>
              && |r| == |platforms| - 1 && multiset(r) + multiset{platforms[index]} == multiset(platforms)
              && forall i :: 0 <= i < |r| ==> r[i] == platforms[if i < index then i else i + 1]
    ensures !(0 <= index < |platforms|) && |platforms| > 0 ==> r == platforms
    ensures |platforms| == 0 || (|platforms| == 1 && index == 0) ==> r == DefaultWholesalePlatforms(info.gram, info.goldPrice)
  {
    RemoveOrReset(platforms, index, DefaultWholesalePlatforms(info.gram, info.goldPrice)[0])
  }

  /** A wholesale result as the results table shows it: in the shape of a
      retail result, with the purchase price carried along. */
  datatype DisplayedResult = DisplayedResult(result: ProfitResult, purchasePrice: Option<real>)

  /** `convertToProfitResult`: every field kept, and the bank deposit is the
      sale price less the commission. */
  function ConvertToProfitResult(w: WholesaleResult): (d: DisplayedResult)
    ensures d.result.bankayaYatan == w.salePrice - w.commissionAmount
    ensures d.result.bankayaYatan + w.commissionAmount == d.result.salePrice
    ensures d.result.platform == w.platform && d.purchasePrice == w.purchasePrice
  {
    DisplayedResult(
      ProfitResult(w.platform, w.commissionRate, w.salePrice, w.commissionAmount, w.totalExpenses,
                   w.netProfit, w.profitRate, w.salePrice - w.commissionAmount, w.optimumScore),
      w.purchasePrice)
  }

  /** The wholesale result a displayed one came from. */
  function WholesaleOf(d: DisplayedResult): WholesaleResult {
    WholesaleResult(d.result.platform, d.result.commissionRate, d.result.salePrice, d.result.commissionAmount,
                    d.result.totalExpenses, d.result.netProfit, d.result.profitRate, d.result.optimumScore,
                    d.purchasePrice)
  }

  /** The conversion loses nothing: the wholesale result comes back from it. */
  lemma {:induction false} ConvertRoundTrip(w: WholesaleResult)
    ensures WholesaleOf(ConvertToProfitResult(w)) == w
  {
  }

  function WholesaleName(r: WholesaleResult): string {
    r.platform
  }

  function WholesaleScore(r: WholesaleResult): Option<real> {
    r.optimumScore
  }

  /** The merge in `handleCalculate`: each server result in its order, with
      its optimum score taken from the local result of the same name when that
      has one; no server results at all gives the local ones. */
  function MergeWholesaleResults(api: seq<WholesaleResult>, local: seq<WholesaleResult>): (r: seq<WholesaleResult>)
    ensures api == [] ==> r == local
    ensures api != [] ==> |r| == |api|
    ensures api != [] ==> forall i :: 0 <= i < |api| ==> r[i] == api[i].(optimumScore := r[i].optimumScore)
    ensures api != [] ==> forall i :: 0 <= i < |api| ==>
              var j := FindIndex(local, WholesaleName, api[i].platform);
              r[i].optimumScore == if j >= 0 && local[j].optimumScore.Some? then local[j].optimumScore else api[i].optimumScore
  {
    var merged := seq(|api|, i requires 0 <= i < |api| =>
                    api[i].(optimumScore := MergedScore(local, WholesaleName, WholesaleScore, api[i].platform, api[i].optimumScore)));
    if |merged| > 0 then merged else local
  }

  /** When the server and the local calculation agree and the names are
      distinct, the merge gives the server's results back. */
  lemma {:induction false} MergeWholesaleWithSelf(rs: seq<WholesaleResult>)
    requires rs != [] && UniqueNames(rs, WholesaleName)
    ensures MergeWholesaleResults(rs, rs) == rs
  {
    var r := MergeWholesaleResults(rs, rs);
    forall i | 0 <= i < |rs|
      ensures r[i] == rs[i]
    {
      MergedScoreOfSelf(rs, WholesaleName, WholesaleScore, i);
    }
  }
}
