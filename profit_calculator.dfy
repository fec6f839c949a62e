/** The gold calculator's state handling (`ProfitCalculator.tsx`): the
    default and restored scenario lists, applying the settings dialog, the
    automatic re-pricing of "Standart" and "Astarlı Ürün", the best scenario,
    and the list of saved calculations (save, delete, drag to reorder). What
    the browser stores is passed in as optional values. */
module ProfitCalculator {
  import opened Wrappers
  import opened JsNumber
  import opened JsText
  import opened Types
  import opened Scenarios
  import Calculations

  const DefaultProductGram: real := 0.40
  const DefaultGoldPrice: real := 5900.0

  /** `getDefaultPlatforms`: "Standart" (commission 22, target 15) and
      "Astarlı Ürün" (commission 22, target 30), both priced at 1.2 times
      weight times gold price. */
  function DefaultPlatforms(productGram: real, goldPrice: real): (r: seq<Platform>)
    ensures |r| == 2 && r[0].name == Standart && r[1].name == Astarli
    ensures forall i :: 0 <= i < 2 ==> r[i].commissionRate == 22.0 && r[i].salePrice == productGram * goldPrice * 1.2
    ensures r[0].targetProfitRate == Some(15.0) && r[1].targetProfitRate == Some(30.0)
  {
    [Platform(Standart, 22.0, productGram * goldPrice * 1.2, Some(15.0)),
     Platform(Astarli, 22.0, productGram * goldPrice * 1.2, Some(30.0))]
  }

  /** The scenario list restored at start-up from the saved list, the saved
      product weight and the saved gold price (each missing when nothing was
      stored). */
  function InitialPlatforms(saved: Option<seq<Platform>>, savedGram: Option<real>, savedPrice: Option<real>): (r: seq<Platform>)
    ensures HasName(r, Standart) && HasName(r, Astarli)
    ensures saved.Some? && HasName(saved.value, Standart) ==>
              |saved.value| <= |r| <= |saved.value| + 1 && r[..|saved.value|] == saved.value
    ensures saved.Some? && HasName(saved.value, Standart) && HasName(saved.value, Astarli) ==> r == saved.value
    ensures saved.None? ==> r == DefaultPlatforms(DefaultProductGram, DefaultGoldPrice)
    ensures saved.Some? && !HasName(saved.value, Standart) ==>
              r == DefaultPlatforms(savedGram.GetOr(DefaultProductGram), savedPrice.GetOr(DefaultGoldPrice))
    ensures saved.Some? && HasName(saved.value, Standart) && !HasName(saved.value, Astarli) ==>
              r == saved.value + [DefaultPlatforms(savedGram.GetOr(DefaultProductGram), savedPrice.GetOr(DefaultGoldPrice))[1]]
  {
    var gram := savedGram.GetOr(DefaultProductGram);
    var price := savedPrice.GetOr(DefaultGoldPrice);
    match saved
    case None =>
      var d := DefaultPlatforms(DefaultProductGram, DefaultGoldPrice);
      assert d[0].name == Standart && d[1].name == Astarli;
      d
    case Some(parsed) =>
      if |parsed| == 0 || !HasName(parsed, Standart) then
        var d := DefaultPlatforms(gram, price);
        assert d[0].name == Standart && d[1].name == Astarli;
        d
      else if !HasName(parsed, Astarli) then
        var r := parsed + [DefaultPlatforms(gram, price)[1]];
        assert r[|parsed|].name == Astarli;
        var k :| 0 <= k < |parsed| && parsed[k].name == Standart;
        assert r[k].name == Standart;
        assert r[..|parsed|] == parsed;
        r
      else parsed
  }

  /** The state the settings dialog writes to. */
  datatype GoldState = GoldState(productInfo: ProductInfo, goldInfo: GoldInfo, expenses: Expenses, platforms: seq<Platform>)

  /** The expenses part of `applySettingsToState`, the same in the gold and
      silver calculators: the four amounts come from the settings, and special
      packaging keeps being charged (at the new default) only when it was
      charged before. */
  function SettingsExpenses(e: Expenses, s: AppSettings): (r: Expenses)
    ensures r.shipping == s.defaultShipping && r.packaging == s.defaultPackaging
    ensures r.serviceFee == s.defaultServiceFee && r.eCommerceTaxRate == s.defaultETaxRate
    ensures r.eCommerceTax == e.eCommerceTax && r.extraChain == e.extraChain
    ensures e.specialPackaging > 0.0 ==> r.specialPackaging == s.defaultExtraCost
    ensures e.specialPackaging <= 0.0 ==> r.specialPackaging == 0.0
  {
    e.(shipping := s.defaultShipping, packaging := s.defaultPackaging, serviceFee := s.defaultServiceFee,
       eCommerceTaxRate := s.defaultETaxRate,
       specialPackaging := if e.specialPackaging > 0.0 then s.defaultExtraCost else 0.0)
  }

  /** Applying the settings' expenses twice is applying them once, unless the
      default extra cost is negative (a second application then drops it). */
  lemma {:induction false} SettingsExpensesIdempotent(e: Expenses, s: AppSettings)
    ensures s.defaultExtraCost >= 0.0 ==> SettingsExpenses(SettingsExpenses(e, s), s) == SettingsExpenses(e, s)
    ensures s.defaultExtraCost < 0.0 && e.specialPackaging > 0.0 ==>
              SettingsExpenses(SettingsExpenses(e, s), s).specialPackaging == 0.0 != SettingsExpenses(e, s).specialPackaging
  {
  }

  /** `applySettingsToState`: weight, labour and gold price from the settings,
      the expenses as above, and the commission and targets of "Standart" and
      "Astarlı Ürün". */
  function ApplySettings(st: GoldState, s: AppSettings): (r: GoldState)
    ensures r.productInfo == st.productInfo.(productGram := s.defaultProductGram, laborMillem := s.defaultLaborMillem)
    ensures r.goldInfo == st.goldInfo.(goldPrice := s.defaultGoldPrice)
    ensures r.expenses == SettingsExpenses(st.expenses, s)
    ensures r.platforms == ApplyRates(st.platforms, s.defaultCommission, s.defaultStandardProfit, Some(s.defaultLinedProfit))
  {
    GoldState(
      st.productInfo.(productGram := s.defaultProductGram, laborMillem := s.defaultLaborMillem),
      st.goldInfo.(goldPrice := s.defaultGoldPrice),
      SettingsExpenses(st.expenses, s),
      ApplyRates(st.platforms, s.defaultCommission, s.defaultStandardProfit, Some(s.defaultLinedProfit)))
  }

  /** Applying the same settings twice is applying them once, unless the
      default extra cost is negative (a second application then drops it). */
  lemma {:induction false} ApplySettingsIdempotent(st: GoldState, s: AppSettings)
    ensures s.defaultExtraCost >= 0.0 ==> ApplySettings(ApplySettings(st, s), s) == ApplySettings(st, s)
    ensures s.defaultExtraCost < 0.0 && st.expenses.specialPackaging > 0.0 ==>
              ApplySettings(ApplySettings(st, s), s).expenses.specialPackaging == 0.0 != ApplySettings(st, s).expenses.specialPackaging
  {
    SettingsExpensesIdempotent(st.expenses, s);
    ApplyRatesIdempotent(st.platforms, s.defaultCommission, s.defaultStandardProfit, Some(s.defaultLinedProfit));
  }

  /** The gold calculator's automatic scenarios and their fallback targets. */
  const GoldAutos: seq<AutoScenario> := [AutoScenario(Standart, 15.0), AutoScenario(Astarli, 30.0)]

  /** The solver with the current product, price and expenses fixed. */
  function GoldSolver(p: ProductInfo, g: GoldInfo, e: Expenses): (real, real) -> real {
    (c: real, t: real) => Calculations.StandardSalePrice(p, g, e, c, t)
  }

  /** The re-pricing effect of the gold calculator: commission `|| 22`, target
      `?? 15` for "Standart" and `?? 30` for "Astarlı Ürün". */
  method RefreshAutoPrices(prev: seq<Platform>, p: ProductInfo, g: GoldInfo, e: Expenses)
    returns (r: seq<Platform>, copied: bool)
    ensures r == RepricedList(prev, GoldAutos, 22.0, GoldSolver(p, g, e))
    ensures copied <==> exists k :: 0 <= k < |GoldAutos| && NeedsReprice(prev, GoldAutos[k], 22.0, GoldSolver(p, g, e))
    ensures !copied ==> r == prev
  {
    r, copied := RepriceAutos(prev, GoldAutos, 22.0, GoldSolver(p, g, e));
  }

  /** A scenario the re-pricing had to change now meets its stored target
      profit rate, as long as the rates leave a positive denominator and the
      costs are positive. */
  lemma {:induction false} RepricedScenarioMeetsTarget(prev: seq<Platform>, p: ProductInfo, g: GoldInfo, e: Expenses, k: nat)
    requires k < |GoldAutos| && NeedsReprice(prev, GoldAutos[k], 22.0, GoldSolver(p, g, e))
    requires var idx := FirstIndex(prev, GoldAutos[k].name);
             Calculations.Denominator(e, AutoCommission(prev[idx], 22.0), AutoTarget(prev[idx], GoldAutos[k])) > 0.0
    requires Calculations.Purchase(p, g) + Calculations.FixedExpenses(e) > 0.0
    ensures var idx := FirstIndex(prev, GoldAutos[k].name);
            var q := RepricedList(prev, GoldAutos, 22.0, GoldSolver(p, g, e))[idx];
            var res := Calculations.Profit(p, g, e, q);
            && q.targetProfitRate.Some?
            && res.profitRate.Finite? && res.profitRate.value >= q.targetProfitRate.value
  {
    var a := GoldAutos[k];
    var idx := FirstIndex(prev, a.name);
    RepricedEntry(prev, GoldAutos, 22.0, GoldSolver(p, g, e), k);
    var c := AutoCommission(prev[idx], 22.0);
    var t := AutoTarget(prev[idx], a);
    var s := Calculations.StandardSalePrice(p, g, e, c, t);
    var q := RepricedList(prev, GoldAutos, 22.0, GoldSolver(p, g, e))[idx];
    assert q == Platform(prev[idx].name, prev[idx].commissionRate, s, Some(t));
    Calculations.SalePriceRoundTrip(p, g, e, prev[idx].name, c, t, Some(t));
    if prev[idx].commissionRate == 0.0 {
      Calculations.NoCommissionEarnsMore(p, g, e, prev[idx].name, s, c, Some(t));
    }
  }

  /** `results.reduce((best, current) => current.profitRate > best.profitRate ? current : best)`:
      the position the reduction ends on. */
  function BestIndex(rs: seq<ProfitResult>): (i: nat)
    requires |rs| > 0
    ensures i < |rs|
  {
    if |rs| == 1 then 0
    else
      var b := BestIndex(rs[..|rs| - 1]);
      if Greater(rs[|rs| - 1].profitRate, rs[b].profitRate) then |rs| - 1 else b
  }

  /** `bestScenario`: none for no results, otherwise the reduction's pick. */
  function BestScenario(rs: seq<ProfitResult>): (r: Option<ProfitResult>)
    ensures r.None? <==> rs == []
    ensures r.Some? ==> r.value in rs
  {
    if rs == [] then None else Some(rs[BestIndex(rs)])
  }

  /** Among rates that are numbers (no NaN), the best scenario has the highest
      profit rate, and is the earliest of those that share it. */
  lemma {:induction false} BestIsEarliestMaximum(rs: seq<ProfitResult>)
    requires |rs| > 0 && forall j :: 0 <= j < |rs| ==> !rs[j].profitRate.NaN?
    ensures var i := BestIndex(rs);
            && (forall j :: 0 <= j < |rs| ==> !Greater(rs[j].profitRate, rs[i].profitRate))
            && (forall j :: 0 <= j < i ==> Greater(rs[i].profitRate, rs[j].profitRate))
  {
    if |rs| > 1 {
      var init := rs[..|rs| - 1];
      assert forall j :: 0 <= j < |init| ==> init[j] == rs[j];
      BestIsEarliestMaximum(init);
      var b := BestIndex(init);
      var last := rs[|rs| - 1].profitRate;
      forall j | 0 <= j < |rs|
        ensures !Greater(rs[j].profitRate, rs[BestIndex(rs)].profitRate)
      {
        GreaterIsStrictOrder(rs[j].profitRate, rs[b].profitRate, last);
        GreaterIsStrictOrder(rs[j].profitRate, last, rs[b].profitRate);
        GreaterIsStrictOrder(last, rs[b].profitRate, rs[j].profitRate);
      }
      forall j | 0 <= j < BestIndex(rs)
        ensures Greater(rs[BestIndex(rs)].profitRate, rs[j].profitRate)
      {
        GreaterIsStrictOrder(last, rs[b].profitRate, rs[j].profitRate);
        GreaterIsStrictOrder(rs[j].profitRate, rs[b].profitRate, last);
        GreaterIsStrictOrder(rs[b].profitRate, rs[j].profitRate, last);
      }
    }
  }

  /** `handleDeleteSaved`: the saved calculations without those carrying `id`. */
  function DeleteSaved(saved: seq<SavedCalculation>, id: string): (r: seq<SavedCalculation>)
    ensures |r| <= |saved|
    ensures forall x :: x in r <==> x in saved && x.id != id
  {
    if saved == [] then []
    else if saved[0].id != id then [saved[0]] + DeleteSaved(saved[1..], id)
    else DeleteSaved(saved[1..], id)
  }

  /** Deleting works entry by entry and keeps the order of what it keeps. */
  lemma {:induction false} DeleteSavedAppend(a: seq<SavedCalculation>, b: seq<SavedCalculation>, id: string)
    ensures DeleteSaved(a + b, id) == DeleteSaved(a, id) + DeleteSaved(b, id)
  {
    if a != [] {
      assert (a + b)[1..] == a[1..] + b;
      DeleteSavedAppend(a[1..], b, id);
    } else {
      assert a + b == b;
    }
  }

  /** The save dialog: whether it is open, the typed name, and the result to save. */
  datatype SaveModal = SaveModal(open: bool, name: string, result: Option<ProfitResult>)

  /** `confirmSaveScenario`: with the dialog open, a result chosen and a name
      that is not blank, a new entry (the trimmed name, the one result, the
      clock as id and as creation time) goes in front and the dialog closes;
      otherwise nothing happens. `idClock` and `createdClock` are the two
      readings of the clock. */
  function ConfirmSave(m: SaveModal, saved: seq<SavedCalculation>, idClock: nat, createdClock: nat)
    : (r: (seq<SavedCalculation>, SaveModal))
    ensures !m.open || m.result.None? || Trim(m.name) == [] ==> r == (saved, m)
    ensures m.open && m.result.Some? && Trim(m.name) != [] ==>
              && |r.0| == |saved| + 1 && r.0[1..] == saved
              && r.0[0].name == Trim(m.name) && r.0[0].name != []
              && r.0[0].results == [m.result.value]
              && r.0[0].id == Decimal(idClock) && DigitsValue(r.0[0].id) == idClock
              && r.0[0].createdAt == createdClock
              && r.1 == SaveModal(false, "", None)
  {
    if !m.open || m.result.None? || Trim(m.name) == [] then (saved, m)
    else
      DecimalRoundTrip(idClock);
      var entry := SavedCalculation(Decimal(idClock), Trim(m.name), createdClock, [m.result.value]);
      assert ([entry] + saved)[1..] == saved;
      ([entry] + saved, SaveModal(false, "", None))
  }

  /** The list after moving the entry at `from` to position `to`: the entries
      between the two positions shift by one toward `from`. */
  function Moved<T>(s: seq<T>, from: nat, to: nat): (r: seq<T>)
    requires from < |s| && to < |s|
    ensures |r| == |s| && r[to] == s[from]
    ensures forall j :: 0 <= j < |s| && j < from && j < to ==> r[j] == s[j]
    ensures forall j :: 0 <= j < |s| && j > from && j > to ==> r[j] == s[j]
    ensures forall j :: from <= j < to ==> r[j] == s[j + 1]
    ensures forall j :: to < j <= from ==> r[j] == s[j - 1]
  {
    var rest := s[..from] + s[from + 1..];
    rest[..to] + [s[from]] + rest[to..]
  }

  /** Moving keeps the same entries. */
  lemma {:induction false} MovedIsPermutation<T>(s: seq<T>, from: nat, to: nat)
    requires from < |s| && to < |s|
    ensures multiset(Moved(s, from, to)) == multiset(s)
  {
    var rest := s[..from] + s[from + 1..];
    assert s == s[..from] + [s[from]] + s[from + 1..];
    assert multiset(s) == multiset(s[..from]) + multiset{s[from]} + multiset(s[from + 1..]);
    assert multiset(rest) == multiset(s[..from]) + multiset(s[from + 1..]);
    assert Moved(s, from, to) == rest[..to] + [s[from]] + rest[to..];
    assert rest == rest[..to] + rest[to..];
    assert multiset(rest) == multiset(rest[..to]) + multiset(rest[to..]);
    assert multiset(rest[..to] + [s[from]] + rest[to..])
        == multiset(rest[..to]) + multiset{s[from]} + multiset(rest[to..]);
    assert multiset(Moved(s, from, to)) == multiset(rest) + multiset{s[from]};
  }

  /** Moving an entry back to where it came from restores the list. */
  lemma {:induction false} MoveBackRestores<T>(s: seq<T>, from: nat, to: nat)
    requires from < |s| && to < |s|
    ensures Moved(Moved(s, from, to), to, from) == s
  {
    var r := Moved(Moved(s, from, to), to, from);
    forall j | 0 <= j < |s|
      ensures r[j] == s[j]
    {
    }
  }

  /** Shifts `a[from+1..to+1]` one place down, over `a[from]`. */
  method ShiftDown<T>(a: array<T>, from: nat, to: nat)
    requires from < to < a.Length
    modifies a
    ensures forall j :: 0 <= j < a.Length && (j < from || j >= to) ==> a[j] == old(a[j])
    ensures forall j :: from <= j < to ==> a[j] == old(a[j + 1])
  {
    for i := from to to
      invariant forall j :: 0 <= j < a.Length && (j < from || j >= i) ==> a[j] == old(a[j])
      invariant forall j :: from <= j < i ==> a[j] == old(a[j + 1])
    {
      a[i] := a[i + 1];
    }
  }

  /** Shifts `a[to..from]` one place up, over `a[from]`. */
  method ShiftUp<T>(a: array<T>, from: nat, to: nat)
    requires to < from < a.Length
    modifies a
    ensures forall j :: 0 <= j < a.Length && (j <= to || j > from) ==> a[j] == old(a[j])
    ensures forall j :: to < j <= from ==> a[j] == old(a[j - 1])
  {
    var i := from;
    while i > to
      invariant to <= i <= from
      invariant forall j :: 0 <= j < a.Length && (j <= i || j > from) ==> a[j] == old(a[j])
      invariant forall j :: i < j <= from ==> a[j] == old(a[j - 1])
    {
      a[i] := a[i - 1];
      i := i - 1;
    }
  }

  /** `onDropSaved`: without a dragged entry, or dropped onto itself, nothing
      changes; otherwise the dragged entry is cut out and inserted at the drop
      position, the entries in between shifting by one. */
  method DropSaved(saved: seq<SavedCalculation>, dragIndex: Option<nat>, index: nat) returns (r: seq<SavedCalculation>)
    requires dragIndex.Some? ==> dragIndex.value < |saved| && index < |saved|
    ensures dragIndex.None? || dragIndex.value == index ==> r == saved
    ensures dragIndex.Some? && dragIndex.value != index ==> r == Moved(saved, dragIndex.value, index)
  {
    if dragIndex.None? || dragIndex.value == index {
      return saved;
    }
    var from := dragIndex.value;
    var a := new SavedCalculation[|saved|](i requires 0 <= i < |saved| => saved[i]);
    assert a[..] == saved;
    var moved := a[from];
    if from < index {
      ShiftDown(a, from, index);
    } else {
      ShiftUp(a, from, index);
    }
    a[index] := moved;
    r := a[..];
    ghost var m := Moved(saved, from, index);
    forall j | 0 <= j < |saved|
      ensures r[j] == m[j]
    {
      assert r[j] == a[j];
    }
  }
}
