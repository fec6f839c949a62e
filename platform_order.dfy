/** The display order of scenarios used by both copies of
    `calculateAllPlatforms`: "Standart" first, then "Senaryo N" by ascending
    N, then the rest by the locale's string order (a parameter here).
    `Array.prototype.sort` is modelled as a stable insertion sort; for a
    consistent comparator every stable sort gives this same order. */
module PlatformOrder {
  import opened Wrappers
  import opened Types
  import opened ScenarioNames

  /** The comparator; `collate` stands for `String.prototype.localeCompare`. */
  function Compare(a: Platform, b: Platform, collate: (string, string) -> int): (r: int)
    ensures a.name == Standart ==> r < 0
    ensures a.name != Standart && b.name == Standart ==> r > 0
    ensures a.name != Standart && b.name != Standart && (ScenarioNumber(a.name).None? || ScenarioNumber(b.name).None?) ==>
              r == collate(a.name, b.name)
  {
    if a.name == Standart then -1
    else if b.name == Standart then 1
    else
      match (ScenarioNumber(a.name), ScenarioNumber(b.name))
      case (Some(x), Some(y)) => x - y
      case (_, _) => collate(a.name, b.name)
  }

  /** No scenario named "Standart" comes after one with another name. */
  predicate StandartFirst(s: seq<Platform>) {
    forall i, j :: 0 <= i < j < |s| && s[j].name == Standart ==> s[i].name == Standart
  }

  /** Place `x` before the first element it does not compare above. */
  function Insert(x: Platform, ys: seq<Platform>, collate: (string, string) -> int): (r: seq<Platform>)
    ensures |r| == |ys| + 1
    ensures multiset(r) == multiset(ys) + multiset{x}
  {
    if ys == [] then [x]
    else if Compare(x, ys[0], collate) > 0 then
      assert ys == [ys[0]] + ys[1..];
      [ys[0]] + Insert(x, ys[1..], collate)
    else
      [x] + ys
  }

  lemma {:induction false} InsertKeepsStandartFirst(x: Platform, ys: seq<Platform>, collate: (string, string) -> int)
    requires StandartFirst(ys)
    ensures StandartFirst(Insert(x, ys, collate))
  {
    var r := Insert(x, ys, collate);
    if ys != [] && Compare(x, ys[0], collate) > 0 {
      assert x.name != Standart;
      var rest := Insert(x, ys[1..], collate);
      assert r == [ys[0]] + rest;
      if ys[0].name == Standart {
        InsertKeepsStandartFirst(x, ys[1..], collate);
      } else {
        assert forall k :: 0 <= k < |ys| ==> ys[k].name != Standart;
        forall k | 0 <= k < |rest|
          ensures rest[k].name != Standart
        {
          assert rest[k] in multiset(rest);
          if rest[k] != x {
            assert rest[k] in multiset(ys[1..]);
            var m :| 0 <= m < |ys[1..]| && ys[1..][m] == rest[k];
            assert ys[m + 1] == rest[k];
          }
        }
      }
    } else if ys != [] {
      assert x.name != Standart ==> ys[0].name != Standart;
      assert x.name != Standart ==> forall k :: 0 <= k < |ys| ==> ys[k].name != Standart;
    }
  }

  /** `[...platforms].sort(comparator)`: a permutation of the input with every
      "Standart" in front. */
  function Sort(s: seq<Platform>, collate: (string, string) -> int): (r: seq<Platform>)
    ensures |r| == |s|
    ensures multiset(r) == multiset(s)
    ensures StandartFirst(r)
  {
    if s == [] then []
    else
      assert s == [s[0]] + s[1..];
      InsertKeepsStandartFirst(s[0], Sort(s[1..], collate), collate);
      Insert(s[0], Sort(s[1..], collate), collate)
  }

  /** If any scenario is named "Standart", the sorted list starts with one. */
  lemma {:induction false} StandartComesFirst(s: seq<Platform>, collate: (string, string) -> int, k: nat)
    requires k < |s| && s[k].name == Standart
    ensures Sort(s, collate)[0].name == Standart
  {
    var r := Sort(s, collate);
    assert s[k] in multiset(s);
    assert s[k] in multiset(r);
    var j :| 0 <= j < |r| && r[j] == s[k];
  }

  /** The names the order can rank: "Standart" and names holding "Senaryo N". */
  predicate Ranked(name: string) {
    name == Standart || ScenarioNumber(name).Some?
  }

  /** The rank of a ranked name: "Standart" lowest, then by scenario number. */
  function Rank(name: string): nat
    requires Ranked(name)
  {
    if name == Standart then 0 else ScenarioNumber(name).value + 1
  }

  predicate AllRanked(s: seq<Platform>) {
    forall p :: p in s ==> Ranked(p.name)
  }

  predicate SortedByRank(s: seq<Platform>)
    requires AllRanked(s)
  {
    forall i, j :: 0 <= i < j < |s| ==> Rank(s[i].name) <= Rank(s[j].name)
  }

  /** Between ranked names the comparator says "after" exactly when the rank is higher. */
  lemma {:induction false} CompareFollowsRank(a: Platform, b: Platform, collate: (string, string) -> int)
    requires Ranked(a.name) && Ranked(b.name)
    ensures Compare(a, b, collate) > 0 <==> Rank(a.name) > Rank(b.name)
  {
  }

  /** Every element is ranked no lower than `y`. */
  predicate AllAbove(y: Platform, s: seq<Platform>)
    requires Ranked(y.name)
  {
    forall p :: p in s ==> Ranked(p.name) && Rank(y.name) <= Rank(p.name)
  }

  /** Inserting an element no lower than `y` among elements no lower than `y`
      gives elements no lower than `y`. */
  lemma {:induction false} InsertAbove(y: Platform, x: Platform, ys: seq<Platform>, collate: (string, string) -> int)
    requires Ranked(y.name) && Ranked(x.name)
    requires Rank(y.name) <= Rank(x.name) && AllAbove(y, ys)
    ensures AllAbove(y, Insert(x, ys, collate))
  {
    if ys != [] {
      var z := ys[0];
      assert z in ys;
      CompareFollowsRank(x, z, collate);
      if Rank(x.name) > Rank(z.name) {
        var tail := ys[1..];
        assert forall p :: p in tail ==> p in ys;
        InsertAbove(y, x, tail, collate);
        assert Insert(x, ys, collate) == [z] + Insert(x, tail, collate);
      } else {
        assert Insert(x, ys, collate) == [x] + ys;
      }
    }
  }

  lemma {:induction false} ConsSorted(y: Platform, rest: seq<Platform>)
    requires Ranked(y.name) && AllRanked(rest) && SortedByRank(rest)
    requires AllAbove(y, rest)
    ensures AllRanked([y] + rest) && SortedByRank([y] + rest)
  {
    var r := [y] + rest;
    forall i, j | 0 <= i < j < |r|
      ensures Rank(r[i].name) <= Rank(r[j].name)
    {
      assert r[j] == rest[j - 1];
      assert rest[j - 1] in rest;
      if i > 0 {
        assert r[i] == rest[i - 1];
      }
    }
  }

  /** The head of a rank-sorted list is ranked lowest, and its tail is sorted. */
  lemma {:induction false} SortedHead(ys: seq<Platform>)
    requires ys != [] && AllRanked(ys) && SortedByRank(ys)
    ensures Ranked(ys[0].name) && AllAbove(ys[0], ys)
    ensures AllRanked(ys[1..]) && SortedByRank(ys[1..])
  {
    assert ys[0] in ys;
    forall p | p in ys
      ensures Rank(ys[0].name) <= Rank(p.name)
    {
      var k :| 0 <= k < |ys| && ys[k] == p;
    }
    assert forall p :: p in ys[1..] ==> p in ys;
    assert forall k :: 0 <= k < |ys[1..]| ==> ys[1..][k] == ys[k + 1];
  }

  lemma {:induction false} InsertKeepsRankOrder(x: Platform, ys: seq<Platform>, collate: (string, string) -> int)
    requires Ranked(x.name) && AllRanked(ys) && SortedByRank(ys)
    ensures AllRanked(Insert(x, ys, collate))
    ensures SortedByRank(Insert(x, ys, collate))
  {
    if ys != [] {
      var y := ys[0];
      SortedHead(ys);
      CompareFollowsRank(x, y, collate);
      if Rank(x.name) > Rank(y.name) {
        var tail := ys[1..];
        assert AllAbove(y, tail) by {
          assert forall p :: p in tail ==> p in ys;
        }
        InsertKeepsRankOrder(x, tail, collate);
        InsertAbove(y, x, tail, collate);
        ConsSorted(y, Insert(x, tail, collate));
        assert Insert(x, ys, collate) == [y] + Insert(x, tail, collate);
      } else {
        assert AllAbove(x, ys);
        assert ys == [y] + ys[1..];
        ConsSorted(x, ys);
        assert Insert(x, ys, collate) == [x] + ys;
      }
    }
  }

  lemma {:induction false} SortKeepsRankOrder(s: seq<Platform>, collate: (string, string) -> int)
    requires AllRanked(s)
    ensures AllRanked(Sort(s, collate))
    ensures SortedByRank(Sort(s, collate))
  {
    if s != [] {
      assert forall p :: p in s[1..] ==> p in s;
      SortKeepsRankOrder(s[1..], collate);
      InsertKeepsRankOrder(s[0], Sort(s[1..], collate), collate);
    }
  }

  /** The names of a list of scenarios, in order. */
  function Names(s: seq<Platform>): (names: seq<string>)
    ensures |names| == |s| && forall i :: 0 <= i < |s| ==> names[i] == s[i].name
  {
    seq(|s|, i requires 0 <= i < |s| => s[i].name)
  }

  /** Every name is ranked, and the ranks never decrease. */
  predicate RankedInOrder(names: seq<string>) {
    && (forall i :: 0 <= i < |names| ==> Ranked(names[i]))
    && (forall i, j :: 0 <= i < j < |names| ==> Rank(names[i]) <= Rank(names[j]))
  }

  /** Among "Standart" and "Senaryo N" names, the sort orders by rank: every
      "Standart" first, then the scenarios by ascending number. */
  lemma {:induction false} SortOrdersScenarios(s: seq<Platform>, collate: (string, string) -> int)
    requires forall i :: 0 <= i < |s| ==> Ranked(s[i].name)
    ensures RankedInOrder(Names(Sort(s, collate)))
  {
    assert AllRanked(s) by {
      forall p | p in s
        ensures Ranked(p.name)
      {
        var k :| 0 <= k < |s| && s[k] == p;
      }
    }
    SortKeepsRankOrder(s, collate);
    var r := Sort(s, collate);
    assert forall i :: 0 <= i < |r| ==> r[i] in r;
  }

  /** What the display order promises: a "Standart" scenario, when there is
      one, comes first; among "Standart" and "Senaryo N" names alone the ranks
      ascend. */
  lemma {:induction false} SortGuarantees(s: seq<Platform>, collate: (string, string) -> int)
    ensures (exists k :: 0 <= k < |s| && s[k].name == Standart) ==> Sort(s, collate)[0].name == Standart
    ensures (forall i :: 0 <= i < |s| ==> Ranked(s[i].name)) ==> RankedInOrder(Names(Sort(s, collate)))
  {
    if exists k :: 0 <= k < |s| && s[k].name == Standart {
      var k :| 0 <= k < |s| && s[k].name == Standart;
      StandartComesFirst(s, collate, k);
    }
    if forall i :: 0 <= i < |s| ==> Ranked(s[i].name) {
      SortOrdersScenarios(s, collate);
    }
  }
}
