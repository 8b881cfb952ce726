/** Ordering by score, as Python's `sorted`, NumPy's `argsort` and slicing do it. */
module Ranking {

  datatype Scored<T> = Scored(item: T, score: real)

  /** Stable insertion into a list sorted by descending score. */
  function Insert<T(!new)>(s: seq<Scored<T>>, b: Scored<T>): (r: seq<Scored<T>>)
    ensures |r| == |s| + 1
    ensures forall x :: x in r <==> x == b || x in s
  {
    if s == [] then [b]
    else if s[|s| - 1].score >= b.score then s + [b]
    else Insert(s[..|s| - 1], b) + [s[|s| - 1]]
  }

  /** `sorted(..., key=score, reverse=True)` */
  function SortDescending<T(!new)>(s: seq<Scored<T>>): (r: seq<Scored<T>>)
    ensures |r| == |s|
    ensures forall x :: x in r <==> x in s
  {
    if s == [] then [] else Insert(SortDescending(s[..|s| - 1]), s[|s| - 1])
  }

  predicate Descending<T(!new)>(s: seq<Scored<T>>) { forall i, j | 0 <= i < j < |s| :: s[i].score >= s[j].score }

  lemma {:induction false} InsertDescends<T(!new)>(s: seq<Scored<T>>, b: Scored<T>)
    requires Descending(s)
    ensures Descending(Insert(s, b))
  {
    if s == [] || s[|s| - 1].score >= b.score {
    } else {
      var n := |s| - 1;
      InsertDescends(s[..n], b);
      var r := Insert(s[..n], b);
      forall i | 0 <= i < |r| ensures r[i].score >= s[n].score {
        assert r[i] in r;
      }
    }
  }

  lemma {:induction false} SortDescends<T(!new)>(s: seq<Scored<T>>)
    ensures Descending(SortDescending(s))
  {
    if s == [] {
    } else {
      SortDescends(s[..|s| - 1]);
      InsertDescends(SortDescending(s[..|s| - 1]), s[|s| - 1]);
    }
  }

  lemma {:induction false} InsertMultiset<T(!new)>(s: seq<Scored<T>>, b: Scored<T>)
    ensures multiset(Insert(s, b)) == multiset(s) + multiset{b}
  {
    if s == [] || s[|s| - 1].score >= b.score {
    } else {
      var n := |s| - 1;
      InsertMultiset(s[..n], b);
      assert s == s[..n] + [s[n]];
    }
  }

  /** Sorting loses and invents nothing. */
  lemma {:induction false} SortMultiset<T(!new)>(s: seq<Scored<T>>)
    ensures multiset(SortDescending(s)) == multiset(s)
  {
    if s == [] {
    } else {
      var n := |s| - 1;
      SortMultiset(s[..n]);
      InsertMultiset(SortDescending(s[..n]), s[n]);
      assert s == s[..n] + [s[n]];
    }
  }

  /** How many elements `s[:n]` has, for a list of `size`. */
  function TakeCount(size: nat, n: int): nat {
    if n >= 0 then if n < size then n else size else if -n < size then size + n else 0
  }

  /** How many elements `s[-n:]` has; note `s[-0:]` is all of them. */
  function LastCount(size: nat, n: int): nat {
    if n > 0 then if n < size then n else size else if -n < size then size + n else 0
  }

  /** `sorted(s, reverse=True)[:n]`: the best ones, best first. */
  function Best<T(!new)>(s: seq<Scored<T>>, n: nat): (r: seq<Scored<T>>)
    requires n <= |s|
    ensures |r| == n
    ensures forall b :: b in r ==> b in s
  {
    SortDescending(s)[..n]
  }

  lemma BestOnes<T(!new)>(s: seq<Scored<T>>, n: nat)
    requires n <= |s|
    ensures Descending(Best(s, n))
    ensures forall b, c | b in Best(s, n) && c in s && c !in Best(s, n) :: b.score >= c.score
    ensures n == |s| ==> forall b :: b in s ==> b in Best(s, n)
  {
    SortDescends(s);
    var (all, r) := (SortDescending(s), Best(s, n));
    assert forall m | 0 <= m < n :: r[m] == all[m] && all[m] in r;
    forall b, c | b in r && c in s && c !in r ensures b.score >= c.score {
      var i :| 0 <= i < n && r[i] == b;
      var j :| 0 <= j < |all| && all[j] == c;
      assert r[i] == all[i] && i < j;
    }
  }

  predicate Distinct<T(==)>(s: seq<T>) { forall a, b | 0 <= a < b < |s| :: s[a] != s[b] }

  lemma OneOfEach<T>(s: seq<T>, p: nat)
    requires Distinct(s) && p < |s|
    ensures multiset(s)[s[p]] == 1
  {
    assert s == s[..p] + [s[p]] + s[p + 1..];
    assert s[p] !in s[..p] && s[p] !in s[p + 1..];
  }

  lemma TwoOfOne<T>(s: seq<T>, a: nat, b: nat)
    requires a < b < |s| && s[a] == s[b]
    ensures multiset(s)[s[a]] >= 2
  {
    assert s == s[..b] + s[b..];
    assert s[a] in s[..b] && s[b] in s[b..];
  }

  lemma SortKeepsDistinct<T(!new)>(s: seq<Scored<T>>)
    requires Distinct(s)
    ensures Distinct(SortDescending(s))
  {
    var r := SortDescending(s);
    SortMultiset(s);
    forall a, b | 0 <= a < b < |r| ensures r[a] != r[b] {
      if r[a] == r[b] {
        TwoOfOne(r, a, b);
        assert r[a] in s;
        var p :| 0 <= p < |s| && s[p] == r[a];
        OneOfEach(s, p);
        assert false;
      }
    }
  }
}
