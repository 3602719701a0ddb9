/**
 * Sorting of paired samples by their x value (sort in utils/utils.py), used
 * before plotting one-dimensional data.
 *
 * The source's argsort is not a stable sort, so the order of pairs with equal x
 * is not fixed there; the model picks one order (insertion keeps input order)
 * and its contracts promise only what the source does: sorted by x, pairs kept.
 */
module SortXY {

  type Pair = (real, real)

  predicate SortedByX(ps: seq<Pair>)
  {
    forall i, j :: 0 <= i < j < |ps| ==> ps[i].0 <= ps[j].0
  }

  predicate NonDecreasing(xs: seq<real>)
  {
    forall i, j :: 0 <= i < j < |xs| ==> xs[i] <= xs[j]
  }

  function Zip(xs: seq<real>, ys: seq<real>): (ps: seq<Pair>)
    requires |xs| <= |ys|
    ensures |ps| == |xs|
    ensures forall i :: 0 <= i < |xs| ==> ps[i] == (xs[i], ys[i])
  {
    seq(|xs|, i requires 0 <= i < |xs| => (xs[i], ys[i]))
  }

  function Firsts(ps: seq<Pair>): (r: seq<real>)
    ensures |r| == |ps|
  {
    if ps == [] then [] else [ps[0].0] + Firsts(ps[1..])
  }

  /** Inserts p before the first pair whose x exceeds p's. */
  function Insert(p: Pair, ps: seq<Pair>): (r: seq<Pair>)
    ensures |r| == |ps| + 1
  {
    if ps == [] then [p]
    else if p.0 < ps[0].0 then [p] + ps
    else [ps[0]] + Insert(p, ps[1..])
  }

  /** A pair whose x is at most every x of a sorted sequence can be put in front of it. */
  lemma SortedCons(q: Pair, ps: seq<Pair>)
    requires SortedByX(ps)
    requires forall i :: 0 <= i < |ps| ==> q.0 <= ps[i].0
    ensures SortedByX([q] + ps)
  {
    forall i, j | 0 <= i < j < |ps| + 1 ensures ([q] + ps)[i].0 <= ([q] + ps)[j].0 {
      assert ([q] + ps)[j] == ps[j - 1];
      if i > 0 {
        assert ([q] + ps)[i] == ps[i - 1];
      }
    }
  }

  /** Insertion adds p and keeps every other pair. */
  lemma {:induction false} InsertPermutes(p: Pair, ps: seq<Pair>)
    ensures multiset(Insert(p, ps)) == multiset(ps) + multiset{p}
  {
    if ps != [] && ps[0].0 <= p.0 {
      InsertPermutes(p, ps[1..]);
      assert ps == [ps[0]] + ps[1..];
    }
  }

  /** Inserting into a sequence sorted by x keeps it sorted. */
  lemma {:induction false} InsertSorted(p: Pair, ps: seq<Pair>)
    requires SortedByX(ps)
    ensures SortedByX(Insert(p, ps))
  {
    if ps == [] {
    } else if p.0 < ps[0].0 {
      SortedCons(p, ps);
    } else {
      var rest := Insert(p, ps[1..]);
      InsertSorted(p, ps[1..]);
      InsertPermutes(p, ps[1..]);
      forall i | 0 <= i < |rest| ensures ps[0].0 <= rest[i].0 {
        assert rest[i] in multiset(rest);
        if rest[i] != p {
          assert rest[i] in ps[1..];
          var k :| 0 <= k < |ps[1..]| && ps[1..][k] == rest[i];
          assert ps[k + 1] == rest[i];
        }
      }
      SortedCons(ps[0], rest);
    }
  }

  lemma {:induction false} InsertFirsts(p: Pair, ps: seq<Pair>)
    ensures multiset(Firsts(Insert(p, ps))) == multiset(Firsts(ps)) + multiset{p.0}
  {
    if ps == [] {
      assert Firsts([p]) == [p.0] + Firsts([]);
    } else if p.0 < ps[0].0 {
      assert ([p] + ps)[1..] == ps;
      assert Firsts([p] + ps) == [p.0] + Firsts(ps);
    } else {
      var rest := Insert(p, ps[1..]);
      InsertFirsts(p, ps[1..]);
      assert Insert(p, ps) == [ps[0]] + rest;
      assert ([ps[0]] + rest)[1..] == rest;
      assert Firsts([ps[0]] + rest) == [ps[0].0] + Firsts(rest);
      assert Firsts(ps) == [ps[0].0] + Firsts(ps[1..]);
    }
  }

  /** Insertion sort by x. */
  function SortPairs(ps: seq<Pair>): (r: seq<Pair>)
    ensures SortedByX(r)
    ensures multiset(r) == multiset(ps)
    ensures |r| == |ps|
  {
    if ps == [] then []
    else
      var rest := SortPairs(ps[1..]);
      InsertSorted(ps[0], rest);
      InsertPermutes(ps[0], rest);
      assert multiset(ps) == multiset{ps[0]} + multiset(ps[1..]) by {
        assert ps == [ps[0]] + ps[1..];
      }
      Insert(ps[0], rest)
  }

  lemma {:induction false} SortPairsFirsts(ps: seq<Pair>)
    ensures multiset(Firsts(SortPairs(ps))) == multiset(Firsts(ps))
  {
    if ps != [] {
      SortPairsFirsts(ps[1..]);
      InsertFirsts(ps[0], SortPairs(ps[1..]));
    }
  }

  /**
   * sort(x, y): x in non-decreasing order and y permuted alongside. y may be
   * longer than x; only its first |x| entries are paired and returned.
   */
  function Sort(xs: seq<real>, ys: seq<real>): (r: (seq<real>, seq<real>))
    requires |xs| <= |ys|
    ensures |r.0| == |xs| && |r.1| == |xs|
    ensures NonDecreasing(r.0)
    ensures multiset(Zip(r.0, r.1)) == multiset(Zip(xs, ys))
  {
    var sorted := SortPairs(Zip(xs, ys));
    var sx := seq(|sorted|, i requires 0 <= i < |sorted| => sorted[i].0);
    var sy := seq(|sorted|, i requires 0 <= i < |sorted| => sorted[i].1);
    assert Zip(sx, sy) == sorted;
    (sx, sy)
  }

  /** The sorted x values are the input's x values, rearranged. */
  lemma SortKeepsX(xs: seq<real>, ys: seq<real>)
    requires |xs| <= |ys|
    ensures multiset(Sort(xs, ys).0) == multiset(xs)
  {
    var sorted := SortPairs(Zip(xs, ys));
    var r := Sort(xs, ys);
    assert Zip(r.0, r.1) == sorted;
    FirstsOfZip(r.0, r.1);
    FirstsOfZip(xs, ys);
    SortPairsFirsts(Zip(xs, ys));
  }

  lemma {:induction false} FirstsOfZip(xs: seq<real>, ys: seq<real>)
    requires |xs| <= |ys|
    ensures Firsts(Zip(xs, ys)) == xs
  {
    if xs != [] {
      assert Zip(xs, ys)[1..] == Zip(xs[1..], ys[1..]);
      FirstsOfZip(xs[1..], ys[1..]);
    }
  }
}
