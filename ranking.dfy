/** The feature ranking of the upload (app.py:404-409) and the five entries the
    insights show (app.py:422-425). The scores themselves come from the trainer. */
module Ranking {
  import opened Wrappers

  /** One record of `importance_df.to_dict(orient='records')`. */
  datatype Ranked = Ranked(feature: string, importance: real)

  /** `pd.DataFrame({'Feature': ..., 'Importance': ...})`: the i-th name with the i-th score. */
  function Zip(features: seq<string>, scores: seq<real>): (r: seq<Ranked>)
    requires |features| == |scores|
    ensures |r| == |features|
    ensures forall i :: 0 <= i < |r| ==> r[i] == Ranked(features[i], scores[i])
  {
    seq(|features|, i requires 0 <= i < |features| => Ranked(features[i], scores[i]))
  }

  predicate SortedDesc(s: seq<Ranked>) {
    forall i, j :: 0 <= i < j < |s| ==> s[i].importance >= s[j].importance
  }

  function InsertDesc(x: Ranked, s: seq<Ranked>): (r: seq<Ranked>)
    requires SortedDesc(s)
    ensures SortedDesc(r) && multiset(r) == multiset(s) + multiset{x}
  {
    if |s| == 0 then [x]
    else if x.importance >= s[0].importance then [x] + s
    else
      var tail := InsertDesc(x, s[1..]);
      assert s == [s[0]] + s[1..];
      BoundedByHead(s, x, tail);
      [s[0]] + tail
  }

  lemma BoundedByHead(s: seq<Ranked>, x: Ranked, tail: seq<Ranked>)
    requires SortedDesc(s) && |s| > 0 && x.importance < s[0].importance
    requires multiset(tail) == multiset(s[1..]) + multiset{x}
    ensures forall i :: 0 <= i < |tail| ==> tail[i].importance <= s[0].importance
  {
    forall i | 0 <= i < |tail| ensures tail[i].importance <= s[0].importance {
      assert tail[i] in multiset(tail);
      if tail[i] != x {
        assert tail[i] in multiset(s[1..]);
        var k :| 0 <= k < |s[1..]| && s[1..][k] == tail[i];
        assert s[k + 1] == tail[i];
      }
    }
  }

  /** `sort_values(by='Importance', ascending=False)`: the same records, by
      non-increasing score. Records of equal score come out in some order; none is
      promised. */
  function RankByImportance(s: seq<Ranked>): (r: seq<Ranked>)
    ensures SortedDesc(r) && multiset(r) == multiset(s)
  {
    if |s| == 0 then []
    else
      assert s == [s[0]] + s[1..];
      InsertDesc(s[0], RankByImportance(s[1..]))
  }

  const TopCount: nat := 5

  /** `feature_importance[:5]`. */
  function Top(ranking: seq<Ranked>, k: nat): (r: seq<Ranked>)
    ensures |r| == Min(k, |ranking|) && r == ranking[..|r|]
  {
    ranking[..Min(k, |ranking|)]
  }

  /** The insights list the first `min(5, n)` records of the ranking, and each of them
      scores at least as high as every record left out. */
  lemma TopAreTheBest(s: seq<Ranked>)
    ensures var r := RankByImportance(s); var t := Top(r, TopCount);
      && |t| == Min(TopCount, |s|)
      && multiset(t) <= multiset(s)
      && forall i, j :: 0 <= i < |t| && |t| <= j < |r| ==> t[i].importance >= r[j].importance
  {
    var r := RankByImportance(s);
    assert |r| == |multiset(r)| == |s|;
    var t := Top(r, TopCount);
    assert r == t + r[|t|..];
    assert multiset(r) == multiset(t) + multiset(r[|t|..]);
  }

  /** Ranking keeps every record and is not changed by ranking again. */
  lemma RankingIsAPermutation(features: seq<string>, scores: seq<real>)
    requires |features| == |scores|
    ensures var r := RankByImportance(Zip(features, scores));
      && |r| == |features|
      && (forall i :: 0 <= i < |features| ==> Ranked(features[i], scores[i]) in r)
      && (forall i :: 0 <= i < |r| ==> exists k :: 0 <= k < |features| && r[i] == Ranked(features[k], scores[k]))
  {
    var z := Zip(features, scores);
    var r := RankByImportance(z);
    assert |r| == |multiset(r)| == |z|;
    forall i | 0 <= i < |features| ensures Ranked(features[i], scores[i]) in r {
      assert z[i] in multiset(z);
    }
    forall i | 0 <= i < |r| ensures exists k :: 0 <= k < |features| && r[i] == Ranked(features[k], scores[k]) {
      assert r[i] in multiset(z);
      var k :| 0 <= k < |z| && z[k] == r[i];
    }
  }

  /** Whatever order a sort leaves records of equal score in, the scores come out in
      the same order as the model's ranking: any non-increasing arrangement of the
      records agrees with it score by score. */
  lemma RankingScoresDetermined(s: seq<Ranked>, other: seq<Ranked>)
    requires SortedDesc(other) && multiset(other) == multiset(s)
    ensures |other| == |RankByImportance(s)|
    ensures forall i :: 0 <= i < |other| ==> other[i].importance == RankByImportance(s)[i].importance
  {
    SortedSameMultisetSameScores(other, RankByImportance(s));
  }

  /** Two non-increasing lists with the same records have the same scores, position
      by position. */
  lemma {:induction false} SortedSameMultisetSameScores(a: seq<Ranked>, b: seq<Ranked>)
    requires SortedDesc(a) && SortedDesc(b) && multiset(a) == multiset(b)
    ensures |a| == |b| && forall i :: 0 <= i < |a| ==> a[i].importance == b[i].importance
    decreases |a|
  {
    assert |a| == |multiset(a)| == |multiset(b)| == |b|;
    if |a| > 0 {
      var ka := HeadPosition(a, b);
      var b2 := b[..ka] + b[ka + 1..];
      TailsAgree(a, b, ka);
      SortedSameMultisetSameScores(a[1..], b2);
      ScoresFromTails(a, b, b2);
    }
  }

  /** The head of `a` sits somewhere in `b` at a position scoring as `b`'s head. */
  lemma HeadPosition(a: seq<Ranked>, b: seq<Ranked>) returns (ka: nat)
    requires SortedDesc(a) && SortedDesc(b) && multiset(a) == multiset(b) && |a| > 0
    ensures ka < |b| && b[ka] == a[0] && b[ka].importance == b[0].importance == a[0].importance
  {
    assert a[0] in multiset(b) && b[0] in multiset(a);
    ka :| 0 <= ka < |b| && b[ka] == a[0];
    var kb :| 0 <= kb < |a| && a[kb] == b[0];
  }

  /** Without their heads, which are the same record, both lists are still
      non-increasing and hold the same records. */
  lemma TailsAgree(a: seq<Ranked>, b: seq<Ranked>, ka: nat)
    requires SortedDesc(a) && SortedDesc(b) && multiset(a) == multiset(b) && |a| > 0
    requires ka < |b| && b[ka] == a[0] && b[ka].importance == b[0].importance
    ensures var b2 := b[..ka] + b[ka + 1..];
      && SortedDesc(a[1..]) && SortedDesc(b2) && multiset(a[1..]) == multiset(b2)
      && forall i :: 1 <= i < |b| ==> b2[i - 1].importance == b[i].importance
  {
    assert a == [a[0]] + a[1..];
    assert multiset(a[1..]) == multiset(a) - multiset{a[0]};
    RemoveAt(b, ka);
  }

  lemma ScoresFromTails(a: seq<Ranked>, b: seq<Ranked>, b2: seq<Ranked>)
    requires |a| == |b| > 0 && |b2| == |b| - 1 && a[0].importance == b[0].importance
    requires forall i :: 1 <= i < |b| ==> b2[i - 1].importance == b[i].importance
    requires forall i :: 0 <= i < |a| - 1 ==> a[1..][i].importance == b2[i].importance
    ensures forall i :: 0 <= i < |a| ==> a[i].importance == b[i].importance
  {
    forall i | 1 <= i < |a| ensures a[i].importance == b[i].importance {
      assert a[i] == a[1..][i - 1];
    }
  }

  /** Taking one record out of a non-increasing list leaves a non-increasing list of
      the other records; when the record scores as high as the head, every later
      position moves up by one without changing its score. */
  lemma RemoveAt(a: seq<Ranked>, k: nat)
    requires SortedDesc(a) && k < |a|
    ensures var r := a[..k] + a[k + 1..];
      && SortedDesc(r) && multiset(r) == multiset(a) - multiset{a[k]}
      && (a[k].importance == a[0].importance ==> forall i :: 1 <= i < |a| ==> r[i - 1].importance == a[i].importance)
  {
    var r := a[..k] + a[k + 1..];
    assert a == a[..k] + [a[k]] + a[k + 1..];
    assert multiset(a) == multiset(a[..k]) + multiset{a[k]} + multiset(a[k + 1..]);
    forall i, j | 0 <= i < j < |r| ensures r[i].importance >= r[j].importance {
      var ii := if i < k then i else i + 1;
      var jj := if j < k then j else j + 1;
      assert r[i] == a[ii] && r[j] == a[jj];
    }
    if a[k].importance == a[0].importance {
      forall i | 1 <= i < |a| ensures r[i - 1].importance == a[i].importance {
        if i <= k {
          assert r[i - 1] == a[i - 1];
          assert a[0].importance >= a[i - 1].importance >= a[i].importance >= a[k].importance;
        } else {
          assert r[i - 1] == a[i];
        }
      }
    }
  }
}
