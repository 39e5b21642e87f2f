/**
 * The final ranking: a stable sort of the result records by super-score,
 * highest first.
 */
module Ranking {
  import opened Model

  /** Every record is ranked at least as high as every record after it. */
  predicate NonIncreasing(s: seq<RankedResult>)
  {
    forall i, j :: 0 <= i < j < |s| ==> s[i].superScore >= s[j].superScore
  }

  /** Each record is ranked at least as high as the next one. */
  predicate AdjacentOrdered(s: seq<RankedResult>)
  {
    |s| <= 1 || (s[0].superScore >= s[1].superScore && AdjacentOrdered(s[1..]))
  }

  /** Ordering neighbours orders the whole sequence. */
  lemma {:induction false} AdjacentToGlobal(s: seq<RankedResult>)
    requires AdjacentOrdered(s)
    ensures NonIncreasing(s)
  {
    if |s| > 1 {
      AdjacentToGlobal(s[1..]);
      forall i, j | 0 <= i < j < |s| ensures s[i].superScore >= s[j].superScore {
        if i > 0 {
          assert s[i] == s[1..][i - 1] && s[j] == s[1..][j - 1];
        } else if j > 1 {
          assert s[1] == s[1..][0] && s[j] == s[1..][j - 1];
        }
      }
    }
  }

  /** The records of `s` whose super-score is `key`, in their order in `s`. */
  function WithScore(s: seq<RankedResult>, key: real): seq<RankedResult>
  {
    if s == [] then []
    else (if s[0].superScore == key then [s[0]] else []) + WithScore(s[1..], key)
  }

  /**
   * Inserts `x` into a ranking after every record scored at least as high,
   * so that it follows the records with its own score that were there first.
   */
  function Insert(x: RankedResult, t: seq<RankedResult>): (r: seq<RankedResult>)
    ensures |r| == |t| + 1
    ensures r[0] == x || (t != [] && r[0] == t[0])
  {
    if t == [] then [x]
    else if t[0].superScore >= x.superScore then
      [t[0]] + Insert(x, t[1..])
    else [x] + t
  }

  /** Insertion adds exactly `x`. */
  lemma {:induction false} InsertPermutes(x: RankedResult, t: seq<RankedResult>)
    ensures multiset(Insert(x, t)) == multiset(t) + multiset{x}
  {
    if t != [] && t[0].superScore >= x.superScore {
      InsertPermutes(x, t[1..]);
      assert t == [t[0]] + t[1..];
    }
  }

  /** Inserting into a ranking yields a ranking. */
  lemma {:induction false} InsertOrdered(x: RankedResult, t: seq<RankedResult>)
    requires AdjacentOrdered(t)
    ensures AdjacentOrdered(Insert(x, t))
  {
    if t != [] && t[0].superScore >= x.superScore {
      InsertOrdered(x, t[1..]);
      var r := Insert(x, t);
      assert r[1..] == Insert(x, t[1..]);
    }
  }

  /**
   * The ranking of the results: ordered by super-score, highest first, and
   * a permutation of them.
   */
  function SortBySuperScore(s: seq<RankedResult>): (r: seq<RankedResult>)
    ensures multiset(r) == multiset(s)
    ensures |r| == |s|
    ensures AdjacentOrdered(r)
  {
    if s == [] then []
    else
      assert s == s[..|s| - 1] + [s[|s| - 1]];
      InsertOrdered(s[|s| - 1], SortBySuperScore(s[..|s| - 1]));
      InsertPermutes(s[|s| - 1], SortBySuperScore(s[..|s| - 1]));
      Insert(s[|s| - 1], SortBySuperScore(s[..|s| - 1]))
  }

  /** The ranking is non-increasing in super-score. */
  lemma SortNonIncreasing(s: seq<RankedResult>)
    ensures NonIncreasing(SortBySuperScore(s))
  {
    AdjacentToGlobal(SortBySuperScore(s));
  }

  /** In a ranking headed by a lower score, no record has the key. */
  lemma {:induction false} WithScoreBelow(t: seq<RankedResult>, key: real)
    requires AdjacentOrdered(t)
    requires t != [] ==> t[0].superScore < key
    ensures WithScore(t, key) == []
  {
    if t != [] {
      WithScoreBelow(t[1..], key);
    }
  }

  /** Selecting from a sequence extended at the end extends the selection at the end. */
  lemma {:induction false} WithScoreSnoc(s: seq<RankedResult>, x: RankedResult, key: real)
    ensures WithScore(s + [x], key) == WithScore(s, key) + (if x.superScore == key then [x] else [])
  {
    var last := if x.superScore == key then [x] else [];
    if s == [] {
      assert [x][1..] == [];
      assert WithScore([x], key) == last + WithScore([], key);
    } else {
      var y, rest := s[0], s[1..];
      var first := if y.superScore == key then [y] else [];
      assert s + [x] == [y] + (rest + [x]);
      WithScoreCons(y, rest + [x], key);
      WithScoreSnoc(rest, x, key);
      WithScoreCons(y, rest, key);
      assert [y] + rest == s;
      assert first + (WithScore(rest, key) + last) == (first + WithScore(rest, key)) + last;
    }
  }

  /** Selecting from a sequence with a known first record. */
  lemma WithScoreCons(y: RankedResult, t: seq<RankedResult>, key: real)
    ensures WithScore([y] + t, key) == (if y.superScore == key then [y] else []) + WithScore(t, key)
  {
    assert ([y] + t)[1..] == t;
  }

  /** Inserting into a ranking places `x` after every record with its score. */
  lemma {:induction false} WithScoreInsert(x: RankedResult, t: seq<RankedResult>, key: real)
    requires AdjacentOrdered(t)
    ensures WithScore(Insert(x, t), key) == WithScore(t, key) + (if x.superScore == key then [x] else [])
  {
    var tail := if x.superScore == key then [x] else [];
    if t == [] {
    } else if t[0].superScore >= x.superScore {
      var y, rest := t[0], t[1..];
      var head := if y.superScore == key then [y] else [];
      var inserted := Insert(x, rest);
      assert Insert(x, t) == [y] + inserted;
      WithScoreCons(y, inserted, key);
      WithScoreInsert(x, rest, key);
      assert WithScore(t, key) == head + WithScore(rest, key);
      assert head + (WithScore(rest, key) + tail) == (head + WithScore(rest, key)) + tail;
    } else {
      assert Insert(x, t) == [x] + t;
      WithScoreCons(x, t, key);
      if x.superScore == key {
        WithScoreBelow(t, key);
      }
    }
  }

  /**
   * The sort is stable: the records sharing any one super-score appear in the
   * ranking in the same relative order as in the results.
   */
  lemma {:induction false} SortStable(s: seq<RankedResult>, key: real)
    ensures WithScore(SortBySuperScore(s), key) == WithScore(s, key)
  {
    if s != [] {
      var init, x := s[..|s| - 1], s[|s| - 1];
      var sorted := SortBySuperScore(init);
      var tail := if x.superScore == key then [x] else [];
      assert s == init + [x];
      calc {
        WithScore(SortBySuperScore(s), key);
        WithScore(Insert(x, sorted), key);
        { WithScoreInsert(x, sorted, key); }
        WithScore(sorted, key) + tail;
        { SortStable(init, key); }
        WithScore(init, key) + tail;
        { WithScoreSnoc(init, x, key); }
        WithScore(s, key);
      }
    }
  }

  /** Three records scored 0.02, -0.01 and 0.015 are ranked 0.02, 0.015, -0.01. */
  lemma ExampleRanking(a: RankedResult, b: RankedResult, c: RankedResult)
    requires a.superScore == 0.02 && b.superScore == -0.01 && c.superScore == 0.015
    ensures SortBySuperScore([a, b, c]) == [a, c, b]
  {
    assert [a, b, c][..2] == [a, b];
    assert [a, b][..1] == [a];
    assert [a][..0] == [];
    assert SortBySuperScore([a]) == [a];
    assert SortBySuperScore([a, b]) == [a, b];
    assert Insert(c, [a, b]) == [a] + Insert(c, [b]);
  }
}
