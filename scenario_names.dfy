/** Scenario names of the form "Senaryo N": how the number is read back out
    of a name (the unanchored pattern `/Senaryo (\d+)/` followed by
    `parseInt`) and how a fresh name is written (`Senaryo ${n}`). */
module ScenarioNames {
  import opened Wrappers
  import opened JsText

  const Prefix: string := "Senaryo "

  /** The pattern matches at position `i`: the prefix, then at least one digit. */
  predicate MatchesAt(s: string, i: nat) {
    i + |Prefix| < |s| && s[i..i + |Prefix|] == Prefix && IsDigit(s[i + |Prefix|])
  }

  /** What the greedy group `(\d+)` captures for a match at `i`. */
  function Captured(s: string, i: nat): (ds: string)
    requires MatchesAt(s, i)
    ensures ds != [] && AllDigits(ds)
  {
    var t := s[i + |Prefix|..];
    t[..LeadingDigits(t)]
  }

  /** The number of the leftmost match at or after `i`, if any. */
  function NumberFrom(s: string, i: nat): (r: Option<nat>)
    decreases |s| - i
    ensures r.Some? ==> i + |Prefix| < |s|
    ensures MatchesAt(s, i) ==> r == Some(DigitsValue(Captured(s, i)))
  {
    if i + |Prefix| >= |s| then None
    else if MatchesAt(s, i) then Some(DigitsValue(Captured(s, i)))
    else NumberFrom(s, i + 1)
  }

  /** The search reads the leftmost match: None exactly when the pattern
      matches nowhere from `i` on, otherwise the value of the digits captured
      at the first position where it matches. */
  lemma {:induction false} NumberFromIsLeftmostMatch(s: string, i: nat)
    decreases |s| - i
    ensures NumberFrom(s, i).None? <==> forall j :: i <= j ==> !MatchesAt(s, j)
    ensures NumberFrom(s, i).Some? ==>
              exists j :: && i <= j && MatchesAt(s, j)
                          && (forall l :: i <= l < j ==> !MatchesAt(s, l))
                          && NumberFrom(s, i).value == DigitsValue(Captured(s, j))
  {
    if i + |Prefix| < |s| && !MatchesAt(s, i) {
      NumberFromIsLeftmostMatch(s, i + 1);
      if NumberFrom(s, i + 1).Some? {
        var j :| && i + 1 <= j && MatchesAt(s, j)
                 && (forall l :: i + 1 <= l < j ==> !MatchesAt(s, l))
                 && NumberFrom(s, i + 1).value == DigitsValue(Captured(s, j));
        assert forall l :: i <= l < j ==> !MatchesAt(s, l);
      }
    }
  }

  /** `name.match(/Senaryo (\d+)/)` then `parseInt(match[1])`; None when
      there is no match. */
  function ScenarioNumber(name: string): (r: Option<nat>)
    ensures |name| <= |Prefix| ==> r.None?
  {
    NumberFrom(name, 0)
  }

  /** `Senaryo ${n}`. */
  function ScenarioName(n: nat): (name: string)
    ensures |name| > |Prefix| && name[..|Prefix|] == Prefix
  {
    Prefix + Decimal(n)
  }

  /** The number written into a scenario name is the number read back. */
  lemma {:induction false} ScenarioNameRoundTrip(n: nat)
    ensures ScenarioNumber(ScenarioName(n)) == Some(n)
  {
    var s := ScenarioName(n);
    var d := Decimal(n);
    assert s[..|Prefix|] == Prefix;
    assert s[|Prefix|] == d[0];
    assert MatchesAt(s, 0);
    assert s[|Prefix|..] == d;
    LeadingDigitsOfDigits(d, "");
    assert d + "" == d;
    assert d[..|d|] == d;
    assert Captured(s, 0) == d;
    DecimalRoundTrip(n);
  }
}
