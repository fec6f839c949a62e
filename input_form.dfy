/** The gold calculator's input form (`InputForm.tsx`): the default price of
    a new scenario, adding, removing and editing scenarios, the special
    packaging switch, the two text fields that parse a weight and a gold price,
    and the 50 cm / 60 cm chain buttons that adjust the weight. */
module InputForm {
  import opened Wrappers
  import opened JsNumber
  import opened JsText
  import opened Types
  import opened ScenarioNames
  import opened Scenarios

  /** `calculateDefaultSalePrice`: twice the product amount, to the nearest
      whole number (a half rounds up). */
  function DefaultSalePrice(productAmount: real): (r: int)
    ensures 2.0 * productAmount - 0.5 < r as real <= 2.0 * productAmount + 0.5
  {
    Round(productAmount * 2.0)
  }

  /** `addPlatform`: a new "Senaryo k" at the end, one past the highest
      scenario number in use, with commission 22, the default price and no
      target; the existing entries stay as they are. */
  function AddPlatform(platforms: seq<Platform>, productAmount: real): (r: seq<Platform>)
    ensures |r| == |platforms| + 1 && r[..|platforms|] == platforms
    ensures var added := r[|platforms|];
            && added.commissionRate == 22.0 && added.targetProfitRate.None?
            && added.salePrice == DefaultSalePrice(productAmount) as real
            && ScenarioNumber(added.name) == Some(NextNumber(platforms))
            && !HasName(platforms, added.name)
  {
    var k := NextNumber(platforms);
    ScenarioNameRoundTrip(k);
    NextNameIsFresh(platforms);
    var r := platforms + [Platform(ScenarioName(k), 22.0, DefaultSalePrice(productAmount) as real, None)];
    assert r[..|platforms|] == platforms;
    r
  }

  /** `removePlatform`: a "Standart" entry is never removed, nor the only
      entry; otherwise exactly the entry at `index` goes. */
  function RemovePlatform(platforms: seq<Platform>, index: nat): (r: seq<Platform>)
    requires index < |platforms|
    ensures platforms[index].name == Standart || |platforms| == 1 ==> r == platforms
    ensures platforms[index].name != Standart && |platforms| > 1 ==>
              && |r| == |platforms| - 1
              && (forall i :: 0 <= i < |r| ==> r[i] == platforms[if i < index then i else i + 1])
    ensures |r| >= 1
    ensures forall i :: 0 <= i < |platforms| && platforms[i].name == Standart ==> platforms[i] in r
  {
    if platforms[index].name == Standart || |platforms| <= 1 then platforms
    else
      RemoveAtKeepsOthers(platforms, index);
      RemoveAt(platforms, index)
  }

  /** `updatePlatform`: a copy of the list whose entry at `index` has the one
      field replaced; every other entry is the same. */
  method UpdatePlatform(platforms: seq<Platform>, index: nat, edit: PlatformEdit) returns (r: seq<Platform>)
    requires index < |platforms|
    ensures |r| == |platforms| && r[index] == Edited(platforms[index], edit)
    ensures forall i :: 0 <= i < |platforms| && i != index ==> r[i] == platforms[i]
  {
    var updated := new Platform[|platforms|](i requires 0 <= i < |platforms| => platforms[i]);
    updated[index] := Edited(updated[index], edit);
    r := updated[..];
  }

  /** What reading `defaultExtraCost` out of the stored settings gives. */
  datatype StoredExtraCost = NoSettings | Unreadable | NotANumber | Number(value: real)

  /** The amount the switch turns special packaging on to: the stored
      setting when it is a number, 150 otherwise. */
  function ExtraCostDefault(stored: StoredExtraCost): real {
    if stored.Number? then stored.value else 150.0
  }

  /** `handleSpecialPackagingToggle`: 0 becomes the stored default (150
      without one), anything else becomes 0. */
  function ToggleSpecialPackaging(current: real, stored: StoredExtraCost): (r: real)
    ensures current != 0.0 ==> r == 0.0
    ensures current == 0.0 && stored.Number? ==> r == stored.value
    ensures current == 0.0 && !stored.Number? ==> r == 150.0
  {
    if current == 0.0 then ExtraCostDefault(stored) else 0.0
  }

  /** Two presses turn a charged packaging into the default, and turn an
      uncharged one back off; with a stored default of 0 the switch cannot
      turn the packaging on at all. */
  lemma {:induction false} ToggleTwice(current: real, stored: StoredExtraCost)
    ensures current != 0.0 ==> ToggleSpecialPackaging(ToggleSpecialPackaging(current, stored), stored) == ExtraCostDefault(stored)
    ensures current == 0.0 && ExtraCostDefault(stored) != 0.0 ==>
              ToggleSpecialPackaging(ToggleSpecialPackaging(current, stored), stored) == 0.0
    ensures current == 0.0 && ExtraCostDefault(stored) == 0.0 ==>
              ToggleSpecialPackaging(current, stored) == 0.0 && stored == Number(0.0)
  {
  }

  /** `/^(\d+)?([.,]\d*)?$/`: digits, then at most one dot or comma followed
      by digits. */
  predicate GramPattern(s: string) {
    var a := LeadingDigits(s);
    a == |s| || ((s[a] == '.' || s[a] == ',') && AllDigits(s[a + 1..]))
  }

  /** Every text of the form digits, separator, digits matches the pattern. */
  lemma {:induction false} GramPatternAccepts(a: string, sep: char, b: string)
    requires AllDigits(a) && AllDigits(b) && (sep == '.' || sep == ',')
    ensures GramPattern(a)
    ensures GramPattern(a + [sep] + b)
  {
    LeadingDigitsOfDigits(a, []);
    assert a + [] == a;
    var s := a + [sep] + b;
    assert s == a + ([sep] + b);
    LeadingDigitsOfDigits(a, [sep] + b);
    assert s[|a| + 1..] == b;
  }

  /** Only such texts match: a text that matches is digits, or digits, one
      separator and digits. */
  lemma {:induction false} GramPatternSplits(s: string)
    requires GramPattern(s)
    ensures AllDigits(s) || exists k :: 0 <= k < |s| && (s[k] == '.' || s[k] == ',') && AllDigits(s[..k]) && AllDigits(s[k + 1..])
    ensures forall i :: 0 <= i < |s| ==> IsDigit(s[i]) || s[i] == '.' || s[i] == ','
  {
    var a := LeadingDigits(s);
    if a == |s| {
      assert s[..a] == s;
    } else {
      forall i | 0 <= i < |s|
        ensures IsDigit(s[i]) || s[i] == '.' || s[i] == ','
      {
        if i < a {
          assert s[i] == s[..a][i];
        } else if i > a {
          assert s[i] == s[a + 1..][i - a - 1];
        }
      }
    }
  }

  /** What the weight field's `onChange` reads from the text: the first comma
      becomes a dot; text that does not match the pattern is refused (None);
      "" and "." read as 0; anything else is read with `parseFloat`, which may
      find no number (Some(None)). */
  function GramReading(input: string): (r: Option<Option<real>>)
    ensures input == [] ==> r == Some(Some(0.0))
  {
    var normalized := ReplaceFirst(input, ',', '.');
    if !(normalized == [] || GramPattern(normalized)) then None
    else if normalized == [] || normalized == "." then Some(Some(0.0))
    else
      GramPatternSplits(normalized);
      Some(ParseFloat(normalized))
  }

  /** The gold weight field's `onChange`: whether the text was taken, and the
      weight afterwards; refused text and text without a number leave the
      weight as it was. */
  function GramInput(input: string, current: real): (r: (bool, real))
    ensures r.0 <==> GramReading(input).Some?
    ensures !r.0 ==> r.1 == current
    ensures input == [] ==> r == (true, 0.0)
  {
    match GramReading(input)
    case None => (false, current)
    case Some(None) => (true, current)
    case Some(Some(v)) => (true, v)
  }

  /** The silver weight field's `onChange`: the same reading, stored as
      `Math.round(v * 1000) / 1000`. */
  function SilverGramInput(input: string, current: real): (r: (bool, real))
    ensures r.0 == GramInput(input, current).0
    ensures r.1 == current || (IsThousandths(r.1) && r.1 == Round3(GramInput(input, current).1))
  {
    match GramReading(input)
    case None => (false, current)
    case Some(None) => (true, current)
    case Some(Some(v)) => (true, Round3(v))
  }

  /** When the gold reading already has at most three decimals, the silver
      field stores the same weight. */
  lemma {:induction false} SilverGramAgrees(input: string, current: real)
    requires IsThousandths(GramInput(input, current).1)
    ensures SilverGramInput(input, current) == GramInput(input, current)
  {
    if GramReading(input).Some? && GramReading(input).value.Some? {
      Round3OfThousandths(GramReading(input).value.value);
    }
  }

  /** A whole number of grams reads as its value. */
  lemma {:induction false} GramInputWhole(a: string, current: real)
    requires a != [] && AllDigits(a)
    ensures GramInput(a, current) == (true, DigitsValue(a) as real)
  {
    assert ReplaceFirst(a, ',', '.') == a;
    GramPatternAccepts(a, '.', []);
    ParseWhole(a);
  }

  /** A weight with a decimal comma or point reads as whole part plus fraction;
      "," and "." alone give 0. */
  lemma {:induction false} GramInputDecimal(a: string, sep: char, b: string, current: real)
    requires AllDigits(a) && AllDigits(b) && (sep == '.' || sep == ',')
    ensures a == [] && b == [] ==> GramInput(a + [sep] + b, current) == (true, 0.0)
    ensures a != [] || b != [] ==> GramInput(a + [sep] + b, current) == (true, DigitsValue(a) as real + FractionValue(b))
  {
    var s := a + [sep] + b;
    var pointed := a + "." + b;
    if sep == ',' {
      assert ',' !in a by {
        forall i | 0 <= i < |a|
          ensures a[i] != ','
        {
          assert IsDigit(a[i]);
        }
      }
      ReplaceFirstAt(a, b, ',', '.');
    } else {
      assert ',' !in s by {
        forall i | 0 <= i < |s|
          ensures s[i] != ','
        {
          if i < |a| {
            assert s[i] == a[i] && IsDigit(a[i]);
          } else if i > |a| {
            assert s[i] == b[i - |a| - 1] && IsDigit(b[i - |a| - 1]);
          }
        }
      }
      assert ReplaceFirst(s, ',', '.') == s;
    }
    assert ReplaceFirst(s, ',', '.') == pointed;
    GramPatternAccepts(a, '.', b);
    if a != [] || b != [] {
      ParsePointed(a, b);
      assert pointed != ".";
    }
  }

  /** A character other than a digit, a comma or a dot makes the weight field
      refuse the text. */
  lemma {:induction false} GramInputRefuses(input: string, i: nat, current: real)
    requires i < |input| && !IsDigit(input[i]) && input[i] != ',' && input[i] != '.'
    ensures GramInput(input, current) == (false, current)
  {
    var normalized := ReplaceFirst(input, ',', '.');
    assert normalized[i] == input[i];
    if GramPattern(normalized) {
      GramPatternSplits(normalized);
      assert false;
    }
  }

  /** The chain-length buttons' state: no chain, 50 cm or 60 cm. */
  datatype Length = NoChain | Chain50 | Chain60

  /** The weight each length adds. */
  function Extra(l: Length): real {
    match l
    case NoChain => 0.0
    case Chain50 => 0.10
    case Chain60 => 0.30
  }

  /** The rounding a weight goes through after a chain button: the gold
      form's `parseFloat(x.toFixed(3))` (a half away from zero) or the silver
      form's `Math.round(x * 1000) / 1000` (a half up). */
  function RoundWeight(x: real, silver: bool): (r: real)
    ensures IsThousandths(r) && x - 0.0005 <= r <= x + 0.0005
  {
    if silver then Round3(x) else ToFixed3(x)
  }

  /** Pressing a chain button: the active button switches back to no chain,
      any other becomes active; the weight loses the old length's extra and
      gains the new one's, rounded to three decimals. */
  function PressLength(gram: real, current: Length, pressed: Length, silver: bool): (r: (real, Length))
    requires pressed != NoChain
    ensures r.1 == (if current == pressed then NoChain else pressed)
    ensures IsThousandths(r.0)
    ensures var exact := gram - Extra(current) + Extra(r.1);
            exact - 0.0005 <= r.0 <= exact + 0.0005
  {
    var next := if current == pressed then NoChain else pressed;
    (RoundWeight(gram - Extra(current) + Extra(next), silver), next)
  }

  /** Pressing the same button twice gives back a weight of at most three
      decimals exactly, with no chain selected. */
  lemma {:induction false} PressTwiceRestores(gram: real, pressed: Length, silver: bool)
    requires pressed != NoChain && IsThousandths(gram)
    ensures var once := PressLength(gram, NoChain, pressed, silver);
            PressLength(once.0, once.1, pressed, silver) == (gram, NoChain)
  {
    var e := Extra(pressed);
    assert IsThousandths(e) by {
      assert e * 1000.0 == (if pressed == Chain50 then 100.0 else 300.0);
    }
    ThousandthsSum(gram, e);
    ToFixed3OfThousandths(gram + e);
    Round3OfThousandths(gram + e);
    assert gram + e - e == gram;
    ToFixed3OfThousandths(gram);
    Round3OfThousandths(gram);
  }

  /** The weight field and its chain buttons, in the gold or the silver form:
      the weight (held by the calculator), the selected chain length, and the
      text being typed ("" when the field shows the weight itself). */
  class GramField {
    const silver: bool
    var gram: real
    var length: Length
    var text: string

    constructor (silver: bool, gram: real)
      ensures this.silver == silver && this.gram == gram && length == NoChain && text == []
    {
      this.silver := silver;
      this.gram := gram;
      length := NoChain;
      text := [];
    }

    /** What typing `input` makes of the weight, in this form. */
    function Typed(input: string, current: real): (r: (bool, real))
      ensures r.0 == GramInput(input, current).0
      ensures !r.0 ==> r.1 == current
    {
      if silver then SilverGramInput(input, current) else GramInput(input, current)
    }

    /** Typing into the field: accepted text is kept as typed and clears the
        chain selection. */
    method Input(input: string)
      modifies this
      ensures gram == Typed(input, old(gram)).1
      ensures Typed(input, old(gram)).0 ==> text == input && length == NoChain
      ensures !Typed(input, old(gram)).0 ==> text == old(text) && length == old(length)
    {
      var r := Typed(input, gram);
      if r.0 {
        text := input;
        if length != NoChain {
          length := NoChain;
        }
        gram := r.1;
      }
    }

    /** Leaving the field: the typed text is dropped. */
    method Blur()
      modifies this
      ensures text == [] && gram == old(gram) && length == old(length)
    {
      text := [];
    }

    /** Pressing the 50 cm or 60 cm button. */
    method Press(pressed: Length)
      requires pressed != NoChain
      modifies this
      ensures (gram, length) == PressLength(old(gram), old(length), pressed, silver)
      ensures text == []
    {
      var currentExtra := Extra(length);
      var next := if length == pressed then NoChain else pressed;
      var desiredExtra := Extra(next);
      gram := RoundWeight(gram - currentExtra + desiredExtra, silver);
      text := [];
      length := next;
    }
  }

  /** The characters the gold price field keeps before reading a number. */
  predicate PriceChar(c: char) {
    IsDigit(c) || c == ',' || c == '.' || c == '-'
  }

  predicate NotDot(c: char) {
    c != '.'
  }

  /** `/^(\d+)([.,]\d{0,2})?$/`: at least one digit, then at most one dot or
      comma with at most two digits after it. */
  predicate PricePattern(s: string) {
    var a := LeadingDigits(s);
    a > 0 && (a == |s| || ((s[a] == '.' || s[a] == ',') && |s| - a - 1 <= 2 && AllDigits(s[a + 1..])))
  }

  /** The text `parseFloat` reads: price characters only, dots (thousands
      separators) dropped, the first comma made a decimal point. */
  function CleanedPrice(input: string): (r: string)
    ensures forall i :: 0 <= i < |r| ==> NumericChar(r[i])
  {
    var kept := Filter(Filter(input, PriceChar), NotDot);
    var r := ReplaceFirst(kept, ',', '.');
    assert forall i :: 0 <= i < |kept| ==> PriceChar(kept[i]) by {
      forall i | 0 <= i < |kept|
        ensures PriceChar(kept[i])
      {
        assert kept[i] in kept;
      }
    }
    r
  }

  /** The gold price field's `onChange`: with the dots dropped the text must be
      digits with at most two decimals after a comma (or be empty); a
      non-negative reading becomes the price, "" gives 0, and anything else
      changes nothing. */
  function GoldPriceInput(input: string, current: real): (r: (bool, real))
    ensures !r.0 ==> r.1 == current
    ensures r.1 != current ==> r.1 >= 0.0
    ensures input == [] ==> r == (true, 0.0)
    ensures r.0 <==> input == [] || PricePattern(Filter(input, NotDot))
  {
    if !(input == [] || PricePattern(Filter(input, NotDot))) then (false, current)
    else
      match ParseFloat(CleanedPrice(input))
      case Some(v) =>
        if v >= 0.0 then (true, v)
        else if input == [] then (true, 0.0)
        else (true, current)
      case None =>
        if input == [] then (true, 0.0)
        else (true, current)
  }

  /** Digits with dots anywhere read as the whole number the digits form. */
  lemma {:induction false} GoldPriceWhole(input: string, a: string, current: real)
    requires a != [] && AllDigits(a) && Filter(input, NotDot) == a
    ensures GoldPriceInput(input, current) == (true, DigitsValue(a) as real)
  {
    LeadingDigitsOfDigits(a, []);
    assert a + [] == a;
    assert PricePattern(Filter(input, NotDot));
    CleanedKeeps(input, a);
    assert ReplaceFirst(a, ',', '.') == a;
    assert CleanedPrice(input) == a;
    ParseWhole(a);
  }

  /** When the dot-free text holds price characters only, it is what the
      clean-up keeps before the comma is replaced. */
  lemma {:induction false} CleanedKeeps(input: string, s: string)
    requires Filter(input, NotDot) == s && forall i :: 0 <= i < |s| ==> PriceChar(s[i])
    ensures Filter(Filter(input, PriceChar), NotDot) == s
  {
    FilterCommutes(input, PriceChar, NotDot);
    FilterKeepsAll(s, PriceChar);
  }

  /** Digits, a comma and at most two digits match the price pattern, and the
      clean-up turns that comma into a decimal point. */
  lemma {:induction false} PricePatternComma(a: string, b: string)
    requires a != [] && AllDigits(a) && AllDigits(b) && |b| <= 2
    ensures PricePattern(a + "," + b)
    ensures forall i :: 0 <= i < |a + "," + b| ==> PriceChar((a + "," + b)[i])
    ensures ReplaceFirst(a + "," + b, ',', '.') == a + "." + b
  {
    var s := a + "," + b;
    assert s == a + ("," + b);
    LeadingDigitsOfDigits(a, "," + b);
    assert s[|a| + 1..] == b;
    forall i | 0 <= i < |s|
      ensures PriceChar(s[i])
    {
      if i < |a| {
        assert s[i] == a[i];
      } else if i > |a| {
        assert s[i] == b[i - |a| - 1];
      }
    }
    assert ',' !in a by {
      forall i | 0 <= i < |a|
        ensures a[i] != ','
      {
        assert IsDigit(a[i]);
      }
    }
    ReplaceFirstAt(a, b, ',', '.');
  }

  /** With dots as thousands separators and a decimal comma, the price reads
      as whole part plus fraction: "2.950,75" gives 2950.75. */
  lemma {:induction false} GoldPriceDecimal(input: string, a: string, b: string, current: real)
    requires a != [] && AllDigits(a) && AllDigits(b) && |b| <= 2
    requires Filter(input, NotDot) == a + "," + b
    ensures GoldPriceInput(input, current) == (true, DigitsValue(a) as real + FractionValue(b))
  {
    PricePatternComma(a, b);
    CleanedKeeps(input, a + "," + b);
    assert CleanedPrice(input) == a + "." + b;
    ParsePointed(a, b);
  }

  /** A text that matches the price pattern holds digits, dots and commas
      only. */
  lemma {:induction false} PricePatternChars(s: string)
    requires PricePattern(s)
    ensures forall i :: 0 <= i < |s| ==> IsDigit(s[i]) || s[i] == '.' || s[i] == ','
  {
    var a := LeadingDigits(s);
    forall i | 0 <= i < |s|
      ensures IsDigit(s[i]) || s[i] == '.' || s[i] == ','
    {
      if i < a {
        assert s[i] == s[..a][i];
      } else if i > a {
        assert s[i] == s[a + 1..][i - a - 1];
      }
    }
  }

  /** A character other than a digit, a comma or a dot (a letter, a space, a
      minus sign) makes the gold price field refuse the text. */
  lemma {:induction false} GoldPriceRefuses(input: string, i: nat, current: real)
    requires i < |input| && !IsDigit(input[i]) && input[i] != ',' && input[i] != '.'
    ensures GoldPriceInput(input, current) == (false, current)
  {
    var s := Filter(input, NotDot);
    assert input[i] in input;
    assert input[i] in s;
    if PricePattern(s) {
      PricePatternChars(s);
      assert false;
    }
  }

  /** A third decimal makes the gold price field refuse the text. */
  lemma {:induction false} GoldPriceRefusesThreeDecimals(input: string, a: string, b: string, current: real)
    requires AllDigits(a) && AllDigits(b) && |b| > 2
    requires Filter(input, NotDot) == a + "," + b
    ensures GoldPriceInput(input, current) == (false, current)
  {
    var s := a + "," + b;
    assert s == a + ("," + b);
    LeadingDigitsOfDigits(a, "," + b);
    assert input != [];
  }
}
