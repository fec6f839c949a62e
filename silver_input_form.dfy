/** The silver calculator's input form (`SilverInputForm.tsx`): editing a
    scenario (with the automatic price of "Standart" and "Astarlı Ürün"),
    adding a scenario or the lined product, removing a scenario, and the
    extra cost field. The weight field and its chain buttons are the
    `InputForm.GramField` in its silver form, and the special packaging switch
    is `InputForm.ToggleSpecialPackaging` read from the silver settings. */
module SilverInputForm {
  import opened Wrappers
  import opened JsNumber
  import opened JsText
  import opened Types
  import opened ScenarioNames
  import opened Scenarios
  import opened InputForm

  /** The scenarios whose target drives their price in this form. */
  const SilverAutoNames: seq<string> := [Standart, Astarli]

  /** `updatePlatform`: the entry at `index` gets the one field; a new target
      on "Standart" or "Astarlı Ürün" also re-prices it with the silver solver
      at its commission `|| 22`. */
  method SilverUpdatePlatform(platforms: seq<Platform>, index: nat, edit: PlatformEdit, solve: (real, real) -> real)
    returns (r: seq<Platform>)
    requires index < |platforms|
    ensures |r| == |platforms|
    ensures var p := platforms[index];
            var isAuto := p.name == Standart || p.name == Astarli;
            && (!(isAuto && edit.SetTarget?) ==> r[index] == Edited(p, edit))
            && (isAuto && edit.SetTarget? ==>
                  r[index] == p.(targetProfitRate := Some(edit.target),
                                 salePrice := solve(Or(p.commissionRate, 22.0), edit.target)))
    ensures forall i :: 0 <= i < |platforms| && i != index ==> r[i] == platforms[i]
  {
    r := UpdateAutoPlatform(platforms, index, edit, SilverAutoNames, 22.0, solve);
  }

  /** `addPlatform`: a new "Senaryo k" with commission 22 and no target,
      priced at the rounded "Standart" price, or at the default price when
      there is no "Standart". */
  function SilverAddPlatform(platforms: seq<Platform>, productAmount: real): (r: seq<Platform>)
    ensures |r| == |platforms| + 1 && r[..|platforms|] == platforms
    ensures var added := r[|platforms|];
            && added.commissionRate == 22.0 && added.targetProfitRate.None?
            && ScenarioNumber(added.name) == Some(NextNumber(platforms))
            && !HasName(platforms, added.name) && IsInteger(added.salePrice)
    ensures HasName(platforms, Standart) ==>
              r[|platforms|].salePrice == Round(platforms[FirstIndex(platforms, Standart)].salePrice) as real
    ensures !HasName(platforms, Standart) ==> r[|platforms|].salePrice == DefaultSalePrice(productAmount) as real
  {
    var d := DefaultSalePrice(productAmount);
    RoundOfInteger(d);
    AddPricedScenario(platforms, 22.0, d as real)
  }

  /** The "Astarlı Ürün" scenario the lined-product button adds. */
  function LinedProduct(solve: (real, real) -> real): Platform {
    Platform(Astarli, 22.0, solve(22.0, 20.0), Some(20.0))
  }

  /** `addLinedProduct`: nothing when an "Astarlı Ürün" is already there;
      otherwise one is appended with commission 22, target 20 and the price
      the solver gives for those. */
  function AddLinedProduct(platforms: seq<Platform>, solve: (real, real) -> real): (r: seq<Platform>)
    ensures HasName(r, Astarli)
    ensures HasName(platforms, Astarli) ==> r == platforms
    ensures !HasName(platforms, Astarli) ==> r == platforms + [LinedProduct(solve)]
  {
    if HasName(platforms, Astarli) then platforms
    else
      var r := platforms + [LinedProduct(solve)];
      assert r[|platforms|].name == Astarli;
      r
  }

  /** The button does nothing the second time, and the entry it adds already
      has the price the automatic re-pricing would give it. */
  lemma {:induction false} AddLinedProductOnce(platforms: seq<Platform>, solve: (real, real) -> real, lined: real)
    ensures AddLinedProduct(AddLinedProduct(platforms, solve), solve) == AddLinedProduct(platforms, solve)
    ensures !IsStale(LinedProduct(solve), AutoScenario(Astarli, lined), 22.0, solve)
  {
    var p := LinedProduct(solve);
    assert AutoCommission(p, 22.0) == 22.0;
    assert AutoTarget(p, AutoScenario(Astarli, lined)) == 20.0;
  }

  /** The scenario a list emptied by a removal is reset to. */
  function ResetScenario(productAmount: real): Platform {
    Platform(Standart, 22.0, DefaultSalePrice(productAmount) as real, Some(30.0))
  }

  /** `removePlatform`: any entry may go, "Standart" included; a list left
      empty becomes a single "Standart" with commission 22, the default
      price and target 30. */
  function SilverRemovePlatform(platforms: seq<Platform>, index: int, productAmount: real): (r: seq<Platform>)
    ensures |r| >= 1
    ensures 0 <= index < |platforms| && |platforms| > 1 ==>
              && |r| == |platforms| - 1 && multiset(r) + multiset{platforms[index]} == multiset(platforms)
              && forall i :: 0 <= i < |r| ==> r[i] == platforms[if i < index then i else i + 1]
    ensures !(0 <= index < |platforms|) && |platforms| > 0 ==> r == platforms
    ensures |platforms| == 0 || (|platforms| == 1 && index == 0) ==> r == [ResetScenario(productAmount)]
  {
    RemoveOrReset(platforms, index, ResetScenario(productAmount))
  }

  /** The extra cost field's `onChange`: after the clean-up, "" and "." set
      the cost to 0, a number sets it (a negative one included), and text
      without a number changes nothing. */
  function ExtraCostInput(input: string, current: real): (r: real)
    ensures var raw := CleanedPrice(input);
            raw == [] || raw == "." ==> r == 0.0
    ensures r == 0.0 || r == current || exists i :: 0 <= i < |input| && IsDigit(input[i])
  {
    var raw := CleanedPrice(input);
    if raw == [] || raw == "." then 0.0
    else
      match ParseFloat(raw)
      case Some(v) =>
        CleanedHasDigit(input);
        v
      case None => current
  }

  /** A digit in the cleaned text is a digit of the typed text. */
  lemma {:induction false} CleanedHasDigit(input: string)
    requires exists i :: 0 <= i < |CleanedPrice(input)| && IsDigit(CleanedPrice(input)[i])
    ensures exists i :: 0 <= i < |input| && IsDigit(input[i])
  {
    var kept := Filter(Filter(input, PriceChar), NotDot);
    var i :| 0 <= i < |CleanedPrice(input)| && IsDigit(CleanedPrice(input)[i]);
    assert CleanedPrice(input)[i] == kept[i];
    assert kept[i] in Filter(input, PriceChar);
    var j :| 0 <= j < |Filter(input, PriceChar)| && Filter(input, PriceChar)[j] == kept[i];
    assert Filter(input, PriceChar)[j] in input;
  }

  /** The extra cost field's `onBlur`: a field that reads as "" or "." after
      the clean-up sets the cost to 0; otherwise nothing changes. */
  function ExtraCostBlur(input: string, current: real): (r: real)
    ensures r == 0.0 || r == current
    ensures var raw := CleanedPrice(input);
            r == (if raw == [] || raw == "." then 0.0 else current)
  {
    var raw := CleanedPrice(input);
    if raw == [] || raw == "." then 0.0 else current
  }

  /** Leaving the field after typing changes nothing more. */
  lemma {:induction false} ExtraCostBlurAfterInput(input: string, current: real)
    ensures ExtraCostBlur(input, ExtraCostInput(input, current)) == ExtraCostInput(input, current)
  {
  }

  /** Digits with dots anywhere read as the whole number the digits form. */
  lemma {:induction false} ExtraCostWhole(input: string, a: string, current: real)
    requires a != [] && AllDigits(a) && Filter(input, NotDot) == a
    ensures ExtraCostInput(input, current) == DigitsValue(a) as real
  {
    CleanedKeeps(input, a);
    assert ReplaceFirst(a, ',', '.') == a;
    assert IsDigit(a[0]);
    ParseWhole(a);
  }

  /** Dots are thousands separators and a comma is the decimal point, with
      any number of decimals: "1.250,5" sets the cost to 1250.5. */
  lemma {:induction false} ExtraCostDecimal(input: string, a: string, b: string, current: real)
    requires AllDigits(a) && AllDigits(b) && (a != [] || b != [])
    requires Filter(input, NotDot) == a + "," + b
    ensures ExtraCostInput(input, current) == DigitsValue(a) as real + FractionValue(b)
  {
    var s := a + "," + b;
    forall i | 0 <= i < |s|
      ensures PriceChar(s[i])
    {
      if i < |a| {
        assert s[i] == a[i];
      } else if i > |a| {
        assert s[i] == b[i - |a| - 1];
      }
    }
    assert ',' !in a by {
      forall i | 0 <= i < |a|
        ensures a[i] != ','
      {
        assert IsDigit(a[i]);
      }
    }
    CleanedKeeps(input, s);
    ReplaceFirstAt(a, b, ',', '.');
    assert CleanedPrice(input) == a + "." + b;
    ParsePointed(a, b);
    assert |a + "." + b| >= 2;
  }

  /** Characters other than digits, commas, dots and minus signs are dropped
      before reading: "150 TL" sets the cost to 150. */
  lemma {:induction false} ExtraCostDropsOthers(input: string, a: string, current: real)
    requires a != [] && AllDigits(a) && Filter(Filter(input, PriceChar), NotDot) == a
    ensures ExtraCostInput(input, current) == DigitsValue(a) as real
  {
    assert ReplaceFirst(a, ',', '.') == a;
    assert IsDigit(a[0]);
    ParseWhole(a);
  }

  /** Unlike the gold price field, this one takes a negative amount: "-150"
      sets the cost to -150. */
  lemma {:induction false} ExtraCostNegative(a: string, current: real)
    requires a != [] && AllDigits(a)
    ensures ExtraCostInput("-" + a, current) == -(DigitsValue(a) as real)
  {
    var s := "-" + a;
    ParseNegativeWhole(a);
    forall i | 0 <= i < |s|
      ensures PriceChar(s[i]) && NotDot(s[i]) && s[i] != ','
    {
      if i > 0 {
        assert s[i] == a[i - 1] && IsDigit(a[i - 1]);
      }
    }
    FilterKeepsAll(s, PriceChar);
    FilterKeepsAll(s, NotDot);
    assert CleanedPrice(s) == ReplaceFirst(s, ',', '.');
    assert ReplaceFirst(s, ',', '.') == s;
  }
}
