/**
 * `vendorScores.sort((a, b) => b.score - a.score)`: a stable sort into
 * non-increasing score order. Array.prototype.sort is required to be stable
 * (section 23.1.3.30 of ECMA-262, 2022 edition), so the result is fully
 * determined: it is the unique non-increasing arrangement in which the rows
 * of each score keep their input order. `SortByScore` is that arrangement,
 * computed by insertion; `StableSortIsUnique` shows that any stable sort
 * yields it, and `SortByScoreDescending` computes it in place on an array.
 */
module Ranking {
  import opened Scoring

  /** Non-increasing by score. */
  ghost predicate Ranked(s: seq<VendorScore>)
  {
    forall i, j :: 0 <= i < j < |s| ==> s[i].score >= s[j].score
  }

  /** The rows of `s` whose score is `v`, in their order in `s`. */
  function WithScore(s: seq<VendorScore>, v: real): seq<VendorScore>
  {
    if s == [] then []
    else WithScore(s[..|s| - 1], v) + (if s[|s| - 1].score == v then [s[|s| - 1]] else [])
  }

  /** Places `x` after every row of `t` whose score is at least its own. */
  function Insert(t: seq<VendorScore>, x: VendorScore): seq<VendorScore>
  {
    if t == [] || t[|t| - 1].score >= x.score then t + [x]
    else Insert(t[..|t| - 1], x) + [t[|t| - 1]]
  }

  /** Inserts the rows one after another in input order. */
  function SortByScore(s: seq<VendorScore>): seq<VendorScore>
  {
    if s == [] then [] else Insert(SortByScore(s[..|s| - 1]), s[|s| - 1])
  }

  lemma {:induction false} WithScoreAppend(a: seq<VendorScore>, b: seq<VendorScore>, v: real)
    ensures WithScore(a + b, v) == WithScore(a, v) + WithScore(b, v)
    decreases |b|
  {
    if b == [] {
      assert a + b == a;
    } else {
      var b' := b[..|b| - 1];
      assert (a + b)[..|a + b| - 1] == a + b';
      WithScoreAppend(a, b', v);
    }
  }

  lemma {:induction false} InsertRanked(t: seq<VendorScore>, x: VendorScore)
    requires Ranked(t)
    ensures Ranked(Insert(t, x))
    ensures |Insert(t, x)| == |t| + 1
    ensures Insert(t, x)[0].score >= x.score
    ensures t != [] ==> Insert(t, x)[0].score >= t[0].score
    decreases |t|
  {
    if t == [] || t[|t| - 1].score >= x.score {
    } else {
      var t' := t[..|t| - 1];
      InsertRanked(t', x);
      var r := Insert(t', x) + [t[|t| - 1]];
      forall i, j | 0 <= i < j < |r| ensures r[i].score >= r[j].score {
        if j == |r| - 1 && i < |r| - 1 {
          // every row of Insert(t', x) is x or a row of t' at least as high as x
          assert r[i] in Insert(t', x);
          InsertMembers(t', x, r[i]);
        }
      }
    }
  }

  lemma {:induction false} InsertMembers(t: seq<VendorScore>, x: VendorScore, y: VendorScore)
    requires y in Insert(t, x)
    ensures y == x || y in t
    decreases |t|
  {
    if t == [] || t[|t| - 1].score >= x.score {
    } else {
      var t' := t[..|t| - 1];
      if y in Insert(t', x) {
        InsertMembers(t', x, y);
      }
    }
  }

  lemma {:induction false} InsertPermutes(t: seq<VendorScore>, x: VendorScore)
    ensures multiset(Insert(t, x)) == multiset(t) + multiset{x}
    decreases |t|
  {
    if t == [] || t[|t| - 1].score >= x.score {
    } else {
      var t' := t[..|t| - 1];
      InsertPermutes(t', x);
      assert t == t' + [t[|t| - 1]];
    }
  }

  lemma {:induction false} InsertKeepsTies(t: seq<VendorScore>, x: VendorScore, v: real)
    requires Ranked(t)
    ensures WithScore(Insert(t, x), v) == WithScore(t, v) + (if x.score == v then [x] else [])
    decreases |t|
  {
    if t == [] || t[|t| - 1].score >= x.score {
      WithScoreAppend(t, [x], v);
      assert WithScore([x], v) == WithScore([], v) + (if x.score == v then [x] else []) by {
        assert [x][..0] == [];
      }
    } else {
      var t' := t[..|t| - 1];
      var last := t[|t| - 1];
      InsertKeepsTies(t', x, v);
      assert Insert(t, x)[..|Insert(t, x)| - 1] == Insert(t', x);
    }
  }

  /** The sorted rows are in non-increasing score order. */
  lemma {:induction false} SortByScoreRanked(s: seq<VendorScore>)
    ensures Ranked(SortByScore(s))
    decreases |s|
  {
    if s != [] {
      SortByScoreRanked(s[..|s| - 1]);
      InsertRanked(SortByScore(s[..|s| - 1]), s[|s| - 1]);
    }
  }

  /** The sorted rows are a permutation of the input rows. */
  lemma {:induction false} SortByScorePermutes(s: seq<VendorScore>)
    ensures multiset(SortByScore(s)) == multiset(s)
    ensures |SortByScore(s)| == |s|
    decreases |s|
  {
    if s != [] {
      var s' := s[..|s| - 1];
      SortByScorePermutes(s');
      InsertPermutes(SortByScore(s'), s[|s| - 1]);
      assert s == s' + [s[|s| - 1]];
    }
    assert |multiset(SortByScore(s))| == |multiset(s)|;
  }

  /** Rows of equal score keep their input order. */
  lemma {:induction false} SortByScoreStable(s: seq<VendorScore>, v: real)
    ensures WithScore(SortByScore(s), v) == WithScore(s, v)
    decreases |s|
  {
    if s != [] {
      var s' := s[..|s| - 1];
      SortByScoreStable(s', v);
      SortByScoreRanked(s');
      InsertKeepsTies(SortByScore(s'), s[|s| - 1], v);
    }
  }

  lemma {:induction false} WithScoreNone(s: seq<VendorScore>, v: real)
    requires forall i :: 0 <= i < |s| ==> s[i].score != v
    ensures WithScore(s, v) == []
    decreases |s|
  {
    if s != [] {
      WithScoreNone(s[..|s| - 1], v);
    }
  }

  /** The last row of a ranked sequence has its least score. */
  lemma LastIsLeast(s: seq<VendorScore>, v: real)
    requires Ranked(s) && s != [] && v < s[|s| - 1].score
    ensures WithScore(s, v) == []
  {
    WithScoreNone(s, v);
  }

  lemma LastRowHasTies(s: seq<VendorScore>)
    requires s != []
    ensures WithScore(s, s[|s| - 1].score) != []
  {
  }

  lemma PrefixOfAppend(a: seq<VendorScore>, b: seq<VendorScore>, c: seq<VendorScore>)
    requires a + c == b + c
    ensures a == b
  {
    assert a == (a + c)[..|a|];
    assert b == (b + c)[..|b|];
  }

  /**
   * Two ranked sequences with the same rows of each score, in the same
   * order, are equal.
   */
  lemma {:induction false} RankedDeterminedByTies(t: seq<VendorScore>, u: seq<VendorScore>)
    requires Ranked(t) && Ranked(u)
    requires forall v :: WithScore(t, v) == WithScore(u, v)
    ensures t == u
    decreases |t| + |u|
  {
    if t == [] && u == [] {
    } else if t == [] {
      // the last row of u has no counterpart in t
      LastRowHasTies(u);
      assert false;
    } else if u == [] {
      LastRowHasTies(t);
      assert false;
    } else {
      var x, y := t[|t| - 1], u[|u| - 1];
      var t', u' := t[..|t| - 1], u[..|u| - 1];
      // the last rows carry the least score of each side, hence the same one
      if x.score < y.score {
        LastIsLeast(u, x.score);
        assert false;
      } else if y.score < x.score {
        LastIsLeast(t, y.score);
        assert false;
      } else {
        var wt, wu := WithScore(t, x.score), WithScore(u, x.score);
        assert wt == WithScore(t', x.score) + [x];
        assert wu == WithScore(u', x.score) + [y];
        assert wt == wu;
        assert x == wt[|wt| - 1] == wu[|wu| - 1] == y;
        forall v ensures WithScore(t', v) == WithScore(u', v) {
          var tail := if x.score == v then [x] else [];
          assert WithScore(t, v) == WithScore(t', v) + tail;
          assert WithScore(u, v) == WithScore(u', v) + tail;
          PrefixOfAppend(WithScore(t', v), WithScore(u', v), tail);
        }
        RankedDeterminedByTies(t', u');
        assert t == t' + [x] && u == u' + [y];
      }
    }
  }

  /**
   * Any arrangement that is ranked and keeps the order of equal scores is
   * `SortByScore` of the input: the model does not depend on which stable
   * algorithm the JavaScript engine uses.
   */
  lemma StableSortIsUnique(s: seq<VendorScore>, t: seq<VendorScore>)
    requires Ranked(t)
    requires forall v :: WithScore(t, v) == WithScore(s, v)
    ensures t == SortByScore(s)
  {
    SortByScoreRanked(s);
    forall v ensures WithScore(t, v) == WithScore(SortByScore(s), v) {
      SortByScoreStable(s, v);
    }
    RankedDeterminedByTies(t, SortByScore(s));
  }

  /** The first sorted row has the highest score of all input rows. */
  lemma TopRowHasMaxScore(s: seq<VendorScore>)
    requires s != []
    ensures SortByScore(s) != []
    ensures forall i :: 0 <= i < |s| ==> s[i].score <= SortByScore(s)[0].score
  {
    SortByScoreRanked(s);
    SortByScorePermutes(s);
    var r := SortByScore(s);
    forall i | 0 <= i < |s| ensures s[i].score <= r[0].score {
      assert s[i] in multiset(r);
      var k :| 0 <= k < |r| && r[k] == s[i];
    }
  }

  /**
   * `Insert` puts `x` right after the rows of `t` scoring at least as high,
   * when those are exactly the rows before position `j`.
   */
  lemma {:induction false} InsertAt(t: seq<VendorScore>, x: VendorScore, j: nat)
    requires j <= |t|
    requires j == 0 || t[j - 1].score >= x.score
    requires forall k :: j <= k < |t| ==> t[k].score < x.score
    ensures Insert(t, x) == t[..j] + [x] + t[j..]
    decreases |t|
  {
    if j < |t| {
      var t' := t[..|t| - 1];
      InsertAt(t', x, j);
      assert t'[..j] == t[..j];
      assert t'[j..] + [t[|t| - 1]] == t[j..];
    }
  }

  /**
   * The inner loop of an insertion step: shifts the rows of `a[..i]` that
   * score below `key` one place right, and returns the gap left for `key`.
   */
  method ShiftLower(a: array<VendorScore>, i: nat, key: VendorScore) returns (j: nat)
    requires i < a.Length
    modifies a
    ensures j <= i
    ensures j == 0 || old(a[j - 1]).score >= key.score
    ensures forall k :: j <= k < i ==> old(a[k]).score < key.score
    ensures forall k :: 0 <= k < j ==> a[k] == old(a[k])
    ensures forall k :: j < k <= i ==> a[k] == old(a[k - 1])
    ensures forall k :: i < k < a.Length ==> a[k] == old(a[k])
  {
    j := i;
    while j > 0 && a[j - 1].score < key.score
      invariant 0 <= j <= i
      invariant forall k :: j <= k < i ==> old(a[k]).score < key.score
      invariant forall k :: 0 <= k < j ==> a[k] == old(a[k])
      invariant forall k :: j < k <= i ==> a[k] == old(a[k - 1])
      invariant forall k :: i < k < a.Length ==> a[k] == old(a[k])
    {
      a[j] := a[j - 1];
      j := j - 1;
    }
  }

  /**
   * One insertion step: with `a[..i]` already arranged, moves `a[i]` left
   * past the rows of strictly lower score; the rest of `a` is untouched.
   */
  method InsertNext(a: array<VendorScore>, i: nat)
    requires i < a.Length
    modifies a
    ensures a[..i + 1] == Insert(old(a[..i]), old(a[i]))
    ensures a[i + 1..] == old(a[i + 1..])
  {
    var key := a[i];
    ghost var sorted := a[..i];
    var j := ShiftLower(a, i, key);
    a[j] := key;
    InsertAt(sorted, key, j);
    assert a[..i + 1] == sorted[..j] + [key] + sorted[j..];
  }

  /** Sorts `a` in place by insertion, exactly as `SortByScore` orders it. */
  method SortByScoreDescending(a: array<VendorScore>)
    modifies a
    ensures a[..] == SortByScore(old(a[..]))
  {
    ghost var input := a[..];
    var i := 0;
    while i < a.Length
      invariant 0 <= i <= a.Length
      invariant a[..i] == SortByScore(input[..i])
      invariant a[i..] == input[i..]
    {
      assert input[..i + 1][..i] == input[..i];
      InsertNext(a, i);
      i := i + 1;
    }
    assert a[..] == a[..a.Length];
    assert input == input[..a.Length];
  }
}
