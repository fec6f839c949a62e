/** Operations on the scenario list that the gold, silver and wholesale
    calculators share: finding a scenario by name, the next free "Senaryo N"
    number, removing by index, writing the settings' rates into the automatic
    scenarios, and the automatic re-pricing of those scenarios. */
module Scenarios {
  import opened Wrappers
  import opened JsNumber
  import opened Types
  import opened ScenarioNames

  predicate HasName(s: seq<Platform>, name: string) {
    exists i :: 0 <= i < |s| && s[i].name == name
  }

  /** `findIndex(p => p.name === name)`: the first position holding `name`, or -1. */
  function FirstIndex(s: seq<Platform>, name: string): (r: int)
    ensures -1 <= r < |s|
    ensures r == -1 <==> !HasName(s, name)
    ensures r >= 0 ==> s[r].name == name && forall i :: 0 <= i < r ==> s[i].name != name
  {
    if s == [] then -1
    else if s[0].name == name then 0
    else
      var r := FirstIndex(s[1..], name);
      assert forall i :: 1 <= i < |s| ==> s[i] == s[1..][i - 1];
      if r == -1 then -1 else r + 1
  }

  /** Lists with the same names in the same places find every name in the same place. */
  lemma {:induction false} FirstIndexOfSameNames(s: seq<Platform>, t: seq<Platform>, name: string)
    requires |s| == |t| && forall i :: 0 <= i < |s| ==> s[i].name == t[i].name
    ensures FirstIndex(s, name) == FirstIndex(t, name)
  {
    if s != [] && s[0].name != name {
      FirstIndexOfSameNames(s[1..], t[1..], name);
    }
  }

  /** What `match ? parseInt(match[1]) : 0` gives for a name. */
  function NumberOrZero(name: string): nat {
    ScenarioNumber(name).GetOr(0)
  }

  /** The largest scenario number among the names, 0 when there is none. */
  function MaxNumber(s: seq<Platform>): (m: nat)
    ensures forall i :: 0 <= i < |s| ==> NumberOrZero(s[i].name) <= m
    ensures m == 0 || exists i :: 0 <= i < |s| && NumberOrZero(s[i].name) == m
  {
    if s == [] then 0
    else
      var m := MaxNumber(s[..|s| - 1]);
      var last := NumberOrZero(s[|s| - 1].name);
      assert forall i :: 0 <= i < |s| - 1 ==> s[..|s| - 1][i] == s[i];
      if last > m then last else m
  }

  /** The number `addPlatform` gives a new scenario: one more than the largest
      positive scenario number, or 1 when there is none. */
  function NextNumber(s: seq<Platform>): (k: nat)
    ensures k >= 1
    ensures forall i :: 0 <= i < |s| ==> NumberOrZero(s[i].name) < k
    ensures k == 1 || exists i :: 0 <= i < |s| && ScenarioNumber(s[i].name) == Some(k - 1)
  {
    MaxNumber(s) + 1
  }

  /** The new scenario's name is not the name of any scenario in the list. */
  lemma {:induction false} NextNameIsFresh(s: seq<Platform>)
    ensures !HasName(s, ScenarioName(NextNumber(s)))
  {
    ScenarioNameRoundTrip(NextNumber(s));
  }

  /** `filter((_, i) => i !== index)`: the list without the entry at `index`,
      or the list itself when `index` is out of range. */
  function RemoveAt(s: seq<Platform>, index: int): (r: seq<Platform>)
    ensures 0 <= index < |s| ==> |r| == |s| - 1 && multiset(r) + multiset{s[index]} == multiset(s)
    ensures !(0 <= index < |s|) ==> r == s
    ensures forall i :: 0 <= i < |r| ==> r[i] == s[if 0 <= index <= i then i + 1 else i]
  {
    if 0 <= index < |s| then
      assert s == s[..index] + [s[index]] + s[index + 1..];
      s[..index] + s[index + 1..]
    else s
  }

  /** Every entry but the removed one is still in the list, one place earlier
      when it came after it. */
  lemma {:induction false} RemoveAtKeepsOthers(s: seq<Platform>, index: nat)
    requires index < |s|
    ensures forall i :: 0 <= i < |s| && i != index ==> s[i] == RemoveAt(s, index)[if i < index then i else i - 1]
    ensures forall i :: 0 <= i < |s| && i != index ==> s[i] in RemoveAt(s, index)
  {
    var r := RemoveAt(s, index);
    forall i | 0 <= i < |s| && i != index
      ensures s[i] == r[if i < index then i else i - 1] && s[i] in r
    {
      var j := if i < index then i else i - 1;
      assert r[j] == s[if 0 <= index <= j then j + 1 else j];
    }
  }

  /** The settings' rates written into the automatic scenarios: every
      "Standart" gets the commission and the standard target, every "Astarlı
      Ürün" the commission and the lined target when there is one. */
  function ApplyRates(s: seq<Platform>, commission: real, standardTarget: real, linedTarget: Option<real>): (r: seq<Platform>)
    ensures |r| == |s|
    ensures forall i :: 0 <= i < |s| ==> r[i].name == s[i].name && r[i].salePrice == s[i].salePrice
    ensures forall i :: 0 <= i < |s| && s[i].name == Standart ==>
              r[i].commissionRate == commission && r[i].targetProfitRate == Some(standardTarget)
    ensures forall i :: 0 <= i < |s| && s[i].name == Astarli && linedTarget.Some? ==>
              r[i].commissionRate == commission && r[i].targetProfitRate == linedTarget
    ensures forall i :: 0 <= i < |s| && s[i].name != Standart && (s[i].name != Astarli || linedTarget.None?) ==>
              r[i] == s[i]
  {
    seq(|s|, i requires 0 <= i < |s| =>
      if s[i].name == Standart then s[i].(commissionRate := commission, targetProfitRate := Some(standardTarget))
      else if s[i].name == Astarli && linedTarget.Some? then s[i].(commissionRate := commission, targetProfitRate := linedTarget)
      else s[i])
  }

  /** Applying the same settings twice is applying them once. */
  lemma {:induction false} ApplyRatesIdempotent(s: seq<Platform>, commission: real, standardTarget: real, linedTarget: Option<real>)
    ensures ApplyRates(ApplyRates(s, commission, standardTarget, linedTarget), commission, standardTarget, linedTarget)
         == ApplyRates(s, commission, standardTarget, linedTarget)
  {
    var r := ApplyRates(s, commission, standardTarget, linedTarget);
    var rr := ApplyRates(r, commission, standardTarget, linedTarget);
    forall i | 0 <= i < |s|
      ensures rr[i] == r[i]
    {
    }
  }

  /** A scenario that the automatic re-pricing maintains, with the target it
      uses when the scenario has none. */
  datatype AutoScenario = AutoScenario(name: string, defaultTarget: real)

  predicate DistinctNames(autos: seq<AutoScenario>) {
    forall i, j :: 0 <= i < j < |autos| ==> autos[i].name != autos[j].name
  }

  /** The commission the re-pricing uses: the scenario's own, `|| c0`. */
  function AutoCommission(p: Platform, c0: real): real {
    Or(p.commissionRate, c0)
  }

  /** The target the re-pricing uses: the scenario's own, `?? defaultTarget`. */
  function AutoTarget(p: Platform, a: AutoScenario): real {
    p.targetProfitRate.GetOr(a.defaultTarget)
  }

  /** The price the solver gives for the scenario's commission and target. */
  function SolvedPrice(p: Platform, a: AutoScenario, c0: real, solve: (real, real) -> real): real {
    solve(AutoCommission(p, c0), AutoTarget(p, a))
  }

  /** The price is off by more than the 0.01 tolerance. */
  predicate IsStale(p: Platform, a: AutoScenario, c0: real, solve: (real, real) -> real) {
    Abs(p.salePrice - SolvedPrice(p, a, c0, solve)) > 0.01
  }

  /** One scenario after re-pricing: a stale price is replaced by the solved
      one and the target used is stored; otherwise nothing changes. */
  function Repriced(p: Platform, a: AutoScenario, c0: real, solve: (real, real) -> real): (q: Platform)
    ensures q.name == p.name && q.commissionRate == p.commissionRate
    ensures !IsStale(q, a, c0, solve)
  {
    if IsStale(p, a, c0, solve) then
      p.(salePrice := SolvedPrice(p, a, c0, solve), targetProfitRate := Some(AutoTarget(p, a)))
    else p
  }

  /** The first scenario named `a.name` in `prev` needs a new price. */
  predicate NeedsReprice(prev: seq<Platform>, a: AutoScenario, c0: real, solve: (real, real) -> real) {
    var idx := FirstIndex(prev, a.name);
    idx >= 0 && IsStale(prev[idx], a, c0, solve)
  }

  /** One turn of the `forEach`: the decision is taken on `prev`, the write
      goes to the working copy `cur`. */
  function RepriceStep(prev: seq<Platform>, cur: seq<Platform>, a: AutoScenario, c0: real, solve: (real, real) -> real): (r: seq<Platform>)
    requires |cur| == |prev|
  {
    var idx := FirstIndex(prev, a.name);
    if NeedsReprice(prev, a, c0, solve) then
      cur[idx := cur[idx].(salePrice := SolvedPrice(prev[idx], a, c0, solve),
                           targetProfitRate := Some(AutoTarget(prev[idx], a)))]
    else cur
  }

  /** The list after the automatic re-pricing of `autos`, in order: the
      names and the commissions stay as they were. */
  function RepricedList(prev: seq<Platform>, autos: seq<AutoScenario>, c0: real, solve: (real, real) -> real): (r: seq<Platform>)
    ensures |r| == |prev|
    ensures forall i :: 0 <= i < |prev| ==> r[i].name == prev[i].name && r[i].commissionRate == prev[i].commissionRate
  {
    if autos == [] then prev
    else RepriceStep(prev, RepricedList(prev, autos[..|autos| - 1], c0, solve), autos[|autos| - 1], c0, solve)
  }

  lemma {:induction false} RepricedListSnoc(prev: seq<Platform>, autos: seq<AutoScenario>, c0: real,
                                            solve: (real, real) -> real, k: nat)
    requires k < |autos|
    ensures RepricedList(prev, autos[..k + 1], c0, solve)
         == RepriceStep(prev, RepricedList(prev, autos[..k], c0, solve), autos[k], c0, solve)
  {
    assert autos[..k + 1][..k] == autos[..k];
  }

  /** Only the first scenario of an automatic name can change. */
  lemma {:induction false} RepricedListKeepsOthers(prev: seq<Platform>, autos: seq<AutoScenario>, c0: real,
                                                   solve: (real, real) -> real, i: nat)
    requires i < |prev| && forall k :: 0 <= k < |autos| ==> FirstIndex(prev, autos[k].name) != i
    ensures RepricedList(prev, autos, c0, solve)[i] == prev[i]
  {
    if autos != [] {
      var init := autos[..|autos| - 1];
      assert forall k :: 0 <= k < |init| ==> init[k] == autos[k];
      RepricedListKeepsOthers(prev, init, c0, solve, i);
    }
  }

  /** When no automatic scenario is stale, the re-pricing changes nothing. */
  lemma {:induction false} RepricedListUnchanged(prev: seq<Platform>, autos: seq<AutoScenario>, c0: real,
                                                 solve: (real, real) -> real)
    requires forall k :: 0 <= k < |autos| ==> !NeedsReprice(prev, autos[k], c0, solve)
    ensures RepricedList(prev, autos, c0, solve) == prev
  {
    if autos != [] {
      var init := autos[..|autos| - 1];
      assert forall k :: 0 <= k < |init| ==> init[k] == autos[k];
      RepricedListUnchanged(prev, init, c0, solve);
      assert !NeedsReprice(prev, autos[|autos| - 1], c0, solve);
    }
  }

  /** One turn of the `forEach` on the working copy: the copy is made the
      first time a price has to change, and the change goes into it. */
  method RepriceOne(prev: seq<Platform>, updated: array?<Platform>, a: AutoScenario, c0: real, solve: (real, real) -> real)
    returns (u: array?<Platform>)
    requires updated != null ==> updated.Length == |prev|
    modifies updated
    ensures updated != null ==> u == updated
    ensures updated == null ==> (u == null <==> !NeedsReprice(prev, a, c0, solve))
    ensures updated == null && u != null ==> fresh(u)
    ensures u != null ==> u.Length == |prev|
                          && u[..] == RepriceStep(prev, if updated == null then prev else old(updated[..]), a, c0, solve)
  {
    u := updated;
    var idx := FirstIndex(prev, a.name);
    if idx != -1 {
      var commissionRate := Or(prev[idx].commissionRate, c0);
      var targetProfitRate := prev[idx].targetProfitRate.GetOr(a.defaultTarget);
      var newSalePrice := solve(commissionRate, targetProfitRate);
      if Abs(prev[idx].salePrice - newSalePrice) > 0.01 {
        if u == null {
          u := new Platform[|prev|](i requires 0 <= i < |prev| => prev[i]);
        }
        ghost var before := u[..];
        u[idx] := u[idx].(salePrice := newSalePrice, targetProfitRate := Some(targetProfitRate));
        assert u[..] == before[idx := before[idx].(salePrice := newSalePrice, targetProfitRate := Some(targetProfitRate))];
      }
    }
  }

  /** The re-pricing effect's updater: it copies the list only when a price
      changes, and hands back the very same list when none does. */
  method RepriceAutos(prev: seq<Platform>, autos: seq<AutoScenario>, c0: real, solve: (real, real) -> real)
    returns (r: seq<Platform>, copied: bool)
    ensures r == RepricedList(prev, autos, c0, solve)
    ensures copied <==> exists k :: 0 <= k < |autos| && NeedsReprice(prev, autos[k], c0, solve)
    ensures !copied ==> r == prev
  {
    var updated: array?<Platform> := null;
    ghost var firstStale: int := -1;
    ghost var cur := prev;
    for k := 0 to |autos|
      invariant cur == RepricedList(prev, autos[..k], c0, solve)
      invariant updated == null <==> firstStale == -1
      invariant updated == null ==> cur == prev && forall j :: 0 <= j < k ==> !NeedsReprice(prev, autos[j], c0, solve)
      invariant updated != null ==> fresh(updated) && updated.Length == |prev| && updated[..] == cur
      invariant updated != null ==> 0 <= firstStale < k && NeedsReprice(prev, autos[firstStale], c0, solve)
    {
      RepricedListSnoc(prev, autos, c0, solve, k);
      var wasNull := updated == null;
      updated := RepriceOne(prev, updated, autos[k], c0, solve);
      cur := RepriceStep(prev, cur, autos[k], c0, solve);
      if wasNull && updated != null {
        firstStale := k;
      }
    }
    assert autos[..|autos|] == autos;
    if updated == null {
      r, copied := prev, false;
    } else {
      r, copied := updated[..], true;
    }
  }

  /** With distinct automatic names, the first scenario of each automatic name
      ends up exactly re-priced. */
  lemma {:induction false} RepricedEntry(prev: seq<Platform>, autos: seq<AutoScenario>, c0: real,
                                         solve: (real, real) -> real, k: nat)
    requires DistinctNames(autos) && k < |autos| && FirstIndex(prev, autos[k].name) >= 0
    ensures var idx := FirstIndex(prev, autos[k].name);
            RepricedList(prev, autos, c0, solve)[idx] == Repriced(prev[idx], autos[k], c0, solve)
  {
    var n := |autos| - 1;
    var init := autos[..n];
    var idx := FirstIndex(prev, autos[k].name);
    assert prev[idx].name == autos[k].name;
    var cur := RepricedList(prev, init, c0, solve);
    assert RepricedList(prev, autos, c0, solve) == RepriceStep(prev, cur, autos[n], c0, solve);
    assert forall j :: 0 <= j < |init| ==> init[j] == autos[j];
    if k == n {
      forall j | 0 <= j < |init|
        ensures FirstIndex(prev, init[j].name) != idx
      {
        assert init[j].name != autos[n].name;
      }
      RepricedListKeepsOthers(prev, init, c0, solve, idx);
    } else {
      assert DistinctNames(init);
      RepricedEntry(prev, init, c0, solve, k);
      assert FirstIndex(prev, autos[n].name) != idx;
    }
  }

  /** After a re-pricing, no automatic scenario is stale: running the
      re-pricing again changes nothing and copies nothing. */
  lemma {:induction false} RepriceIdempotent(prev: seq<Platform>, autos: seq<AutoScenario>, c0: real, solve: (real, real) -> real)
    requires DistinctNames(autos)
    ensures var r := RepricedList(prev, autos, c0, solve);
            && (forall k :: 0 <= k < |autos| ==> !NeedsReprice(r, autos[k], c0, solve))
            && RepricedList(r, autos, c0, solve) == r
  {
    var r := RepricedList(prev, autos, c0, solve);
    forall k | 0 <= k < |autos|
      ensures !NeedsReprice(r, autos[k], c0, solve)
    {
      FirstIndexOfSameNames(prev, r, autos[k].name);
      if FirstIndex(prev, autos[k].name) >= 0 {
        RepricedEntry(prev, autos, c0, solve, k);
      }
    }
    RepricedListUnchanged(r, autos, c0, solve);
  }

  /** The one field an edit in a scenario table sets. */
  datatype PlatformEdit = Rename(name: string) | SetCommission(rate: real) | SetSalePrice(price: real) | SetTarget(target: real)

  /** `{ ...platform, [field]: value }`. */
  function Edited(p: Platform, edit: PlatformEdit): (q: Platform)
    ensures q.name == (if edit.Rename? then edit.name else p.name)
    ensures q.commissionRate == (if edit.SetCommission? then edit.rate else p.commissionRate)
    ensures q.salePrice == (if edit.SetSalePrice? then edit.price else p.salePrice)
    ensures q.targetProfitRate == (if edit.SetTarget? then Some(edit.target) else p.targetProfitRate)
  {
    match edit
    case Rename(n) => p.(name := n)
    case SetCommission(c) => p.(commissionRate := c)
    case SetSalePrice(s) => p.(salePrice := s)
    case SetTarget(t) => p.(targetProfitRate := Some(t))
  }

  /** An edit in the silver or wholesale table: setting the target of an
      automatic scenario also sets its price to the solved one, with the
      commission `|| c0`; any other edit sets just its field. */
  function AutoEdited(p: Platform, edit: PlatformEdit, isAuto: bool, c0: real, solve: (real, real) -> real): (q: Platform)
    ensures !(isAuto && edit.SetTarget?) ==> q == Edited(p, edit)
    ensures isAuto && edit.SetTarget? ==>
              && q.name == p.name && q.commissionRate == p.commissionRate
              && q.targetProfitRate == Some(edit.target)
  {
    if isAuto && edit.SetTarget? then
      p.(targetProfitRate := Some(edit.target), salePrice := solve(Or(p.commissionRate, c0), edit.target))
    else Edited(p, edit)
  }

  /** After its target is edited, an automatic scenario's price is the one the
      re-pricing would give it, so the re-pricing leaves it alone. */
  lemma {:induction false} AutoEditedIsCurrent(p: Platform, t: real, c0: real, solve: (real, real) -> real, a: AutoScenario)
    ensures var q := AutoEdited(p, SetTarget(t), true, c0, solve);
            q.salePrice == SolvedPrice(q, a, c0, solve) && !IsStale(q, a, c0, solve)
  {
  }

  /** `updatePlatform` of the silver and wholesale forms: a copy of the list
      with the entry at `index` edited as above; every other entry is the same. */
  method UpdateAutoPlatform(platforms: seq<Platform>, index: nat, edit: PlatformEdit, autoNames: seq<string>,
                            c0: real, solve: (real, real) -> real) returns (r: seq<Platform>)
    requires index < |platforms|
    ensures |r| == |platforms|
    ensures r[index] == AutoEdited(platforms[index], edit, platforms[index].name in autoNames, c0, solve)
    ensures forall i :: 0 <= i < |platforms| && i != index ==> r[i] == platforms[i]
  {
    var updated := new Platform[|platforms|](i requires 0 <= i < |platforms| => platforms[i]);
    var platform := updated[index];
    var isAuto := platform.name in autoNames;
    updated[index] := AutoEdited(platform, edit, isAuto, c0, solve);
    r := updated[..];
  }

  /** `addPlatform` of the silver and wholesale forms: a fresh "Senaryo k"
      with the given commission and no target, priced at the first
      "Standart" price rounded to a whole number, or at the rounded fallback
      when there is no "Standart"; the existing entries stay as they are. */
  function AddPricedScenario(platforms: seq<Platform>, commission: real, fallback: real): (r: seq<Platform>)
    ensures |r| == |platforms| + 1 && r[..|platforms|] == platforms
    ensures var added := r[|platforms|];
            && added.commissionRate == commission && added.targetProfitRate.None?
            && ScenarioNumber(added.name) == Some(NextNumber(platforms))
            && !HasName(platforms, added.name)
            && IsInteger(added.salePrice)
    ensures HasName(platforms, Standart) ==>
              r[|platforms|].salePrice == Round(platforms[FirstIndex(platforms, Standart)].salePrice) as real
    ensures !HasName(platforms, Standart) ==> r[|platforms|].salePrice == Round(fallback) as real
  {
    var k := NextNumber(platforms);
    ScenarioNameRoundTrip(k);
    NextNameIsFresh(platforms);
    var i := FirstIndex(platforms, Standart);
    var initial := if i >= 0 then platforms[i].salePrice else fallback;
    var price := Round(initial) as real;
    assert IsInteger(price);
    var r := platforms + [Platform(ScenarioName(k), commission, price, None)];
    assert r[..|platforms|] == platforms;
    r
  }

  /** `removePlatform` of the silver and wholesale forms: the entry at
      `index` goes, and a list left empty is replaced by the single `reset`
      scenario, so the list is never empty. */
  function RemoveOrReset(platforms: seq<Platform>, index: int, reset: Platform): (r: seq<Platform>)
    ensures |r| >= 1
    ensures |platforms| == 0 || (|platforms| == 1 && index == 0) ==> r == [reset]
    ensures |platforms| > 1 || (|platforms| == 1 && index != 0) ==> r == RemoveAt(platforms, index)
  {
    var next := RemoveAt(platforms, index);
    if |next| == 0 then [reset] else next
  }
}
