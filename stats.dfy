/** The two fill values of the cleaner: a numeric column's median and an object
    column's mode. */
module Stats {
  import opened Strings

  predicate SortedAsc(s: seq<real>) {
    forall i, j :: 0 <= i < j < |s| ==> s[i] <= s[j]
  }

  function InsertAsc(x: real, s: seq<real>): (r: seq<real>)
    requires SortedAsc(s)
    ensures SortedAsc(r) && multiset(r) == multiset(s) + multiset{x}
  {
    if |s| == 0 then [x]
    else if x <= s[0] then [x] + s
    else
      var tail := InsertAsc(x, s[1..]);
      assert s == [s[0]] + s[1..];
      AboveHead(s, x, tail);
      [s[0]] + tail
  }

  lemma AboveHead(s: seq<real>, x: real, tail: seq<real>)
    requires SortedAsc(s) && |s| > 0 && s[0] < x
    requires multiset(tail) == multiset(s[1..]) + multiset{x}
    ensures forall i :: 0 <= i < |tail| ==> s[0] <= tail[i]
  {
    forall i | 0 <= i < |tail| ensures s[0] <= tail[i] {
      assert tail[i] in multiset(tail);
      if tail[i] != x {
        assert tail[i] in multiset(s[1..]);
        var k :| 0 <= k < |s[1..]| && s[1..][k] == tail[i];
        assert s[k + 1] == tail[i];
      }
    }
  }

  /** The values in ascending order. */
  function SortAsc(s: seq<real>): (r: seq<real>)
    ensures SortedAsc(r) && multiset(r) == multiset(s)
  {
    if |s| == 0 then []
    else
      assert s == [s[0]] + s[1..];
      InsertAsc(s[0], SortAsc(s[1..]))
  }

  /** `Series.median()` over the non-missing values: the middle value of the sorted
      values, or the mean of the two middle ones when their number is even. It lies
      between the least and the greatest value, and is one of the values when their
      number is odd. */
  function Median(vs: seq<real>): (r: real)
    requires |vs| > 0
    ensures exists i :: 0 <= i < |vs| && vs[i] <= r
    ensures exists i :: 0 <= i < |vs| && r <= vs[i]
    ensures |vs| % 2 == 1 ==> r in vs
  {
    var s := SortAsc(vs);
    assert |s| == |multiset(s)| == |vs|;
    MiddleBounds(s);
    assert s[0] in multiset(vs) && s[|s| - 1] in multiset(vs);
    assert |s| % 2 == 1 ==> s[|s| / 2] in multiset(vs);
    Middle(s)
  }

  /** The middle value of sorted values, or the mean of the two middle ones. */
  function Middle(s: seq<real>): real
    requires |s| > 0
  {
    var n := |s|;
    if n % 2 == 1 then s[n / 2] else (s[n / 2 - 1] + s[n / 2]) / 2.0
  }

  lemma MiddleBounds(s: seq<real>)
    requires SortedAsc(s) && |s| > 0
    ensures s[0] <= Middle(s) <= s[|s| - 1]
    ensures |s| % 2 == 1 ==> Middle(s) == s[|s| / 2]
  {
    var n := |s|;
    if n % 2 == 0 {
      assert s[0] <= s[n / 2 - 1] <= s[n / 2] <= s[n - 1];
    }
  }

  function Count(vs: seq<string>, x: string): nat {
    multiset(vs)[x]
  }

  /** Ranks `x` against the best candidate so far: more frequent, or as frequent and
      earlier in code-point order. */
  predicate Beats(vs: seq<string>, x: string, best: string) {
    Count(vs, x) > Count(vs, best) || (Count(vs, x) == Count(vs, best) && LexLess(x, best))
  }

  /** The candidate `best` is at least as good as every earlier value `vs[..i]`. */
  ghost predicate ModeSoFar(vs: seq<string>, i: nat, best: string)
    requires i <= |vs|
  {
    forall j :: 0 <= j < i ==> !Beats(vs, vs[j], best)
  }

  function ModeFrom(vs: seq<string>, i: nat, best: string): (r: string)
    requires i <= |vs| && best in vs && ModeSoFar(vs, i, best)
    ensures r in vs && ModeSoFar(vs, |vs|, r)
    decreases |vs| - i
  {
    if i == |vs| then best
    else
      var c := vs[i];
      if Beats(vs, c, best) then
        assert ModeSoFar(vs, i + 1, c) by {
          LexLessIrreflexive(c);
          forall j | 0 <= j < i + 1 ensures !Beats(vs, vs[j], c) {
            if j < i && Beats(vs, vs[j], c) {
              LexLessTransitive(vs[j], c, best);
            }
          }
        }
        ModeFrom(vs, i + 1, c)
      else
        ModeFrom(vs, i + 1, best)
  }

  /** `Series.mode()[0]`: a most frequent value, the least in code-point order among
      the values that are as frequent. */
  function Mode(vs: seq<string>): (r: string)
    requires |vs| > 0
    ensures r in vs
    ensures forall x :: x in vs ==> Count(vs, x) <= Count(vs, r)
    ensures forall x :: x in vs && x != r && Count(vs, x) == Count(vs, r) ==> LexLess(r, x)
  {
    LexLessIrreflexive(vs[0]);
    var r := ModeFrom(vs, 1, vs[0]);
    assert forall x :: x in vs ==> !Beats(vs, x, r) by {
      forall x | x in vs ensures !Beats(vs, x, r) {
        var j :| 0 <= j < |vs| && vs[j] == x;
      }
    }
    assert forall x :: x in vs && x != r && Count(vs, x) == Count(vs, r) ==> LexLess(r, x) by {
      forall x | x in vs && x != r && Count(vs, x) == Count(vs, r) ensures LexLess(r, x) {
        LexLessTotal(r, x);
      }
    }
    r
  }
}
