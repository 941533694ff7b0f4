/** The ranking step of the decision pipeline: a stable sort by non-increasing score
    (the list sort with a score key and `reverse=True` at stage2_decision/pipeline.py:53). */
module Ranking {
  import opened Common
  import opened DecisionEntity

  /** Inserts `x` into the non-increasing list `t`, after every element whose score is at least `x`'s. */
  function InsertDesc(t: seq<Scored>, x: Scored): seq<Scored> {
    if t == [] then [x]
    else if t[|t| - 1].score < x.score then InsertDesc(t[..|t| - 1], x) + [t[|t| - 1]]
    else t + [x]
  }

  /** The list sorted by non-increasing score, equal scores in their original order. */
  function SortedByScore(s: seq<Scored>): (r: seq<Scored>)
    ensures |r| == |s|
  {
    if s == [] then []
    else
      InsertDescPermutes(SortedByScore(s[..|s| - 1]), s[|s| - 1]);
      InsertDesc(SortedByScore(s[..|s| - 1]), s[|s| - 1])
  }

  predicate NonIncreasing(s: seq<Scored>) {
    forall i, j :: 0 <= i < j < |s| ==> s[i].score >= s[j].score
  }

  /** The elements with score `v`, in order. */
  function WithScore(s: seq<Scored>, v: real): seq<Scored> {
    Filter((e: Scored) => e.score == v, s)
  }

  lemma {:induction false} InsertDescPermutes(t: seq<Scored>, x: Scored)
    ensures multiset(InsertDesc(t, x)) == multiset(t) + multiset{x}
    ensures |InsertDesc(t, x)| == |t| + 1
    decreases |t|
  {
    if t != [] {
      var n := |t| - 1;
      assert t == t[..n] + [t[n]];
      if t[n].score < x.score {
        InsertDescPermutes(t[..n], x);
      }
    }
  }

  lemma {:induction false} NonIncreasingPrefix(t: seq<Scored>, n: nat)
    requires NonIncreasing(t) && n <= |t|
    ensures NonIncreasing(t[..n])
  {
    forall i, j | 0 <= i < j < n ensures t[..n][i].score >= t[..n][j].score {
      assert t[..n][i] == t[i] && t[..n][j] == t[j];
    }
  }

  /** A lower bound on the scores of `t` and of `x` bounds every score after the insertion. */
  lemma {:induction false} InsertDescAtLeast(t: seq<Scored>, x: Scored, bound: real)
    requires forall i :: 0 <= i < |t| ==> t[i].score >= bound
    requires x.score >= bound
    ensures forall i :: 0 <= i < |InsertDesc(t, x)| ==> InsertDesc(t, x)[i].score >= bound
    decreases |t|
  {
    if t != [] {
      var n := |t| - 1;
      if t[n].score < x.score {
        assert forall i :: 0 <= i < n ==> t[..n][i] == t[i];
        InsertDescAtLeast(t[..n], x, bound);
      }
    }
  }

  lemma {:induction false} InsertDescSorted(t: seq<Scored>, x: Scored)
    requires NonIncreasing(t)
    ensures NonIncreasing(InsertDesc(t, x))
    decreases |t|
  {
    if t != [] {
      var n := |t| - 1;
      var last := t[n];
      if last.score < x.score {
        NonIncreasingPrefix(t, n);
        InsertDescSorted(t[..n], x);
        assert forall i :: 0 <= i < n ==> t[..n][i].score >= last.score by {
          forall i | 0 <= i < n ensures t[..n][i].score >= last.score {
            assert t[..n][i] == t[i];
          }
        }
        InsertDescAtLeast(t[..n], x, last.score);
        var u := InsertDesc(t[..n], x);
        var r := u + [last];
        forall i, j | 0 <= i < j < |r| ensures r[i].score >= r[j].score {
          if j == |r| - 1 {
            assert r[j] == last && r[i] == u[i];
          } else {
            assert r[i] == u[i] && r[j] == u[j];
          }
        }
      } else {
        var r := t + [x];
        forall i, j | 0 <= i < j < |r| ensures r[i].score >= r[j].score {
          if j == |r| - 1 {
            assert r[i] == t[i] && r[j] == x;
          } else {
            assert r[i] == t[i] && r[j] == t[j];
          }
        }
      }
    }
  }

  /** The sort returns its input reordered, by non-increasing score. */
  lemma {:induction false} SortedByScoreFacts(s: seq<Scored>)
    ensures NonIncreasing(SortedByScore(s))
    ensures multiset(SortedByScore(s)) == multiset(s)
    ensures |SortedByScore(s)| == |s|
    decreases |s|
  {
    if s != [] {
      var n := |s| - 1;
      assert s == s[..n] + [s[n]];
      SortedByScoreFacts(s[..n]);
      InsertDescSorted(SortedByScore(s[..n]), s[n]);
      InsertDescPermutes(SortedByScore(s[..n]), s[n]);
    }
  }

  lemma {:induction false} InsertDescStable(t: seq<Scored>, x: Scored, v: real)
    ensures WithScore(InsertDesc(t, x), v) == WithScore(t, v) + WithScore([x], v)
    decreases |t|
  {
    var p := (e: Scored) => e.score == v;
    if t == [] {
    } else {
      var n := |t| - 1;
      var last := t[n];
      assert t == t[..n] + [last];
      FilterAppend(p, t[..n], [last]);
      if last.score < x.score {
        InsertDescStable(t[..n], x, v);
        FilterAppend(p, InsertDesc(t[..n], x), [last]);
        assert WithScore([x], v) == [] || WithScore([last], v) == [];
      } else {
        FilterAppend(p, t, [x]);
      }
    }
  }

  /** Stability: for every score, the elements with that score keep their input order. */
  lemma {:induction false} SortedByScoreStable(s: seq<Scored>, v: real)
    ensures WithScore(SortedByScore(s), v) == WithScore(s, v)
    decreases |s|
  {
    if s != [] {
      var n := |s| - 1;
      assert s == s[..n] + [s[n]];
      SortedByScoreStable(s[..n], v);
      InsertDescStable(SortedByScore(s[..n]), s[n], v);
      FilterAppend((e: Scored) => e.score == v, s[..n], [s[n]]);
    }
  }

  /** The head of the sorted list has the maximal score of the input. */
  lemma SortedHeadIsMaximal(s: seq<Scored>)
    requires s != []
    ensures SortedByScore(s) != []
    ensures SortedByScore(s)[0] in s
    ensures forall e :: e in s ==> SortedByScore(s)[0].score >= e.score
  {
    SortedByScoreFacts(s);
    var r := SortedByScore(s);
    assert r[0] in multiset(r);
    forall e | e in s ensures r[0].score >= e.score {
      assert e in multiset(s);
      var k :| 0 <= k < |r| && r[k] == e;
      if k > 0 {
        assert r[0].score >= r[k].score;
      }
    }
  }
}
