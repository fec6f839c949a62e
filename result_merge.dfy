/** The lookup behind the silver and wholesale calculators' merge of server
    results with local ones: `local.find(lr => lr.platform === key)`, and the
    optimum score `local?.optimumScore ?? api.optimumScore` it contributes. The
    result type is a parameter, given with its name and score fields. */
module ResultMerge {
  import opened Wrappers

  /** The position `find` stops at: the first result carrying `key`, or -1. */
  function FindIndex<R>(rs: seq<R>, name: R -> string, key: string): (i: int)
    ensures -1 <= i < |rs|
    ensures i == -1 <==> forall j :: 0 <= j < |rs| ==> name(rs[j]) != key
    ensures i >= 0 ==> name(rs[i]) == key && forall j :: 0 <= j < i ==> name(rs[j]) != key
  {
    if rs == [] then -1
    else if name(rs[0]) == key then 0
    else
      var i := FindIndex(rs[1..], name, key);
      assert forall j :: 1 <= j < |rs| ==> rs[1..][j - 1] == rs[j];
      if i == -1 then -1 else i + 1
  }

  /** `localResult?.optimumScore ?? apiScore`: the local result's score when
      there is a local result of that name and it has a score, otherwise the
      server's. */
  function MergedScore<R>(local: seq<R>, name: R -> string, score: R -> Option<real>,
                          key: string, apiScore: Option<real>): (s: Option<real>)
    ensures s == apiScore || exists j :: 0 <= j < |local| && name(local[j]) == key && s == score(local[j])
    ensures s.None? ==> apiScore.None?
  {
    var i := FindIndex(local, name, key);
    if i >= 0 && score(local[i]).Some? then score(local[i]) else apiScore
  }

  /** Names that occur once each. */
  predicate UniqueNames<R>(rs: seq<R>, name: R -> string) {
    forall i, j :: 0 <= i < j < |rs| ==> name(rs[i]) != name(rs[j])
  }

  /** In a list of distinct names, `find` by an entry's name finds that entry. */
  lemma {:induction false} FindIndexOfDistinct<R>(rs: seq<R>, name: R -> string, i: nat)
    requires UniqueNames(rs, name) && i < |rs|
    ensures FindIndex(rs, name, name(rs[i])) == i
  {
    var k := FindIndex(rs, name, name(rs[i]));
    assert k >= 0;
  }

  /** Merging a list with itself changes no score when the names are distinct. */
  lemma {:induction false} MergedScoreOfSelf<R>(rs: seq<R>, name: R -> string, score: R -> Option<real>, i: nat)
    requires UniqueNames(rs, name) && i < |rs|
    ensures MergedScore(rs, name, score, name(rs[i]), score(rs[i])) == score(rs[i])
  {
    FindIndexOfDistinct(rs, name, i);
  }

  /** Local results without scores leave the server's score in place. */
  lemma {:induction false} MergedScoreWithoutLocalScores<R>(local: seq<R>, name: R -> string, score: R -> Option<real>,
                                                          key: string, apiScore: Option<real>)
    requires forall j :: 0 <= j < |local| ==> score(local[j]).None?
    ensures MergedScore(local, name, score, key, apiScore) == apiScore
  {
  }
}
