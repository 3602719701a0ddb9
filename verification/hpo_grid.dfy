/**
 * Planning of the test grid on which a classifier's cost is evaluated
 * (get_hpo_test_data): how many steps per axis, where the grid points lie, and
 * how integer hyperparameters collapse their points to distinct integers.
 * Training the classifier at each point is foreign and not part of this model.
 */
module HpoGrid {
  import opened Wrappers

  /** An optimized hyperparameter: its range, whether it is sampled on a log scale, whether it is an integer. */
  datatype Hyperparameter = Hyperparameter(name: string, lower: real, upper: real, log: bool, isInteger: bool)

  /**
   * The two ways the planning raises: dividing by a missing step count, or
   * dividing a Python number by a zero step count (a log axis divides numpy's
   * logarithm instead, which gives an infinity and no exception).
   */
  datatype GridError = DivisionByNone | DivisionByZero

  /** The inputs of the test set: none for an unsupported count of parameters, a line, or a grid. */
  datatype TestInputs =
    | NotSupported
    | Line(xs: seq<real>)
    | Grid(rows: seq<seq<(real, real)>>)

  /** int(sqrt(n)): the largest k with k * k <= n. */
  function IntSqrt(n: nat): (k: nat)
    ensures k * k <= n < (k + 1) * (k + 1)
  {
    if n == 0 then 0
    else
      var k := IntSqrt(n - 1);
      if (k + 1) * (k + 1) <= n then k + 1 else k
  }

  /** Steps per axis: int(sqrt(n)) for two parameters, n for one, None otherwise. */
  function TestSteps(nParams: nat, nTestSamples: nat): (r: Option<nat>)
    ensures r.Some? <==> nParams == 1 || nParams == 2
    ensures nParams == 1 ==> r == Some(nTestSamples)
    ensures nParams == 2 ==> r.value * r.value <= nTestSamples < (r.value + 1) * (r.value + 1)
  {
    if nParams == 2 then Some(IntSqrt(nTestSamples))
    else if nParams == 1 then Some(nTestSamples)
    else None
  }

  lemma MulLeft(a: nat, b: nat, c: nat)
    requires a <= c
    ensures a * b <= c * b
  {
    assert c * b == a * b + (c - a) * b;
  }

  lemma MulBoth(a: nat, b: nat, c: nat, d: nat)
    requires a <= c && b <= d
    ensures a * b <= c * d
  {
    MulLeft(a, b, c);
    MulLeft(b, c, d);
  }

  /** IntSqrt is determined by its contract: only one k has k * k <= n < (k + 1) * (k + 1). */
  lemma IntSqrtUnique(n: nat, k: nat)
    requires k * k <= n < (k + 1) * (k + 1)
    ensures IntSqrt(n) == k
  {
    var s := IntSqrt(n);
    if s < k {
      MulBoth(s + 1, s + 1, k, k);
    } else if s > k {
      MulBoth(k + 1, k + 1, s, s);
    }
  }

  /** The 100 test samples of the sweep give a 10 by 10 grid for two parameters. */
  lemma HundredSamplesTenSteps()
    ensures TestSteps(2, 100) == Some(10)
    ensures TestSteps(1, 100) == Some(100)
  {
    IntSqrtUnique(100, 10);
  }

  /** np.linspace(start, stop, num): num evenly spaced values, both ends included. */
  function Linspace(start: real, stop: real, num: nat): (r: seq<real>)
    ensures |r| == num
  {
    if num == 0 then []
    else if num == 1 then [start]
    else seq(num, k requires 0 <= k < num => start + (k as real) * (stop - start) / ((num - 1) as real))
  }

  /** The axis of one parameter in its own space: the centres of steps equal cells. */
  function CellCentres(lower: real, upper: real, steps: nat): (r: seq<real>)
    requires steps >= 1
    ensures |r| == steps
  {
    var half := 0.5 * (upper - lower) / (steps as real);
    Linspace(lower + half, upper - half, steps)
  }

  lemma MulDiv(a: real, b: real, d: real)
    requires d != 0.0
    ensures a * b / d == a * (b / d)
  {
  }

  lemma DivOf(x: real, y: real, d: real)
    requires d != 0.0 && x == y * d
    ensures x / d == y
  {
  }

  /** Linspace's k-th value for at least two points, stated on its own. */
  lemma LinspaceAt(start: real, stop: real, num: nat, k: nat)
    requires 2 <= num && k < num
    ensures Linspace(start, stop, num)[k] == start + (k as real) * (stop - start) / ((num - 1) as real)
  {
  }

  /** Centres spread evenly from the first cell's to the last cell's lie at (k + 1/2) cell widths from lower. */
  lemma CentreArithmetic(lower: real, upper: real, steps: nat, start: real, stop: real, k: nat)
    requires steps >= 2
    requires start == lower + 0.5 * (upper - lower) / (steps as real)
    requires stop == upper - 0.5 * (upper - lower) / (steps as real)
    ensures start + (k as real) * (stop - start) / ((steps - 1) as real)
      == lower + ((k as real) + 0.5) * (upper - lower) / (steps as real)
  {
    assert ((steps - 1) as real) == (steps as real) - 1.0;
    MulDiv(0.5, upper - lower, steps as real);
    MulDiv((k as real) + 0.5, upper - lower, steps as real);
    DivOf(upper - lower, (upper - lower) / (steps as real), steps as real);
    assert stop - start == ((upper - lower) / (steps as real)) * ((steps - 1) as real);
    DivOf(stop - start, (upper - lower) / (steps as real), (steps - 1) as real);
    MulDiv(k as real, stop - start, (steps - 1) as real);
    assert ((k as real) + 0.5) * (upper - lower) / (steps as real)
      == (k as real) * ((upper - lower) / (steps as real)) + 0.5 * ((upper - lower) / (steps as real));
  }

  /** The k-th grid value is the centre of the k-th of steps equal cells of [lower, upper]. */
  lemma CellCentresAt(lower: real, upper: real, steps: nat, k: nat)
    requires steps >= 1 && k < steps
    ensures CellCentres(lower, upper, steps)[k] == lower + ((k as real) + 0.5) * (upper - lower) / (steps as real)
  {
    var half := 0.5 * (upper - lower) / (steps as real);
    if steps == 1 {
      assert k == 0;
      assert CellCentres(lower, upper, steps)[k] == lower + half;
    } else {
      var start, stop := lower + half, upper - half;
      assert CellCentres(lower, upper, steps) == Linspace(start, stop, steps);
      LinspaceAt(start, stop, steps, k);
      CentreArithmetic(lower, upper, steps, start, stop, k);
    }
  }

  /** For a non-empty range every grid value lies strictly inside it. */
  lemma CellCentresInside(lower: real, upper: real, steps: nat)
    requires steps >= 1 && lower < upper
    ensures forall k :: 0 <= k < steps ==> lower < CellCentres(lower, upper, steps)[k] < upper
  {
    forall k | 0 <= k < steps ensures lower < CellCentres(lower, upper, steps)[k] < upper {
      CellCentreInside(lower, upper, steps, k);
    }
  }

  lemma CellCentreInside(lower: real, upper: real, steps: nat, k: nat)
    requires steps >= 1 && lower < upper && k < steps
    ensures lower < CellCentres(lower, upper, steps)[k] < upper
  {
    CellCentresAt(lower, upper, steps, k);
    var n := steps as real;
    var w := (upper - lower) / n;
    var c := (k as real) + 0.5;
    assert c * (upper - lower) / n == c * w;
    assert n * w == upper - lower;
    var gap := n - c;
    PositiveProduct(c, w);
    PositiveProduct(gap, w);
    var centre := CellCentres(lower, upper, steps)[k];
    assert centre == lower + c * w;
    assert gap * w == n * w - c * w;
    assert upper - centre == gap * w;
  }

  lemma PositiveProduct(a: real, b: real)
    requires a > 0.0 && b > 0.0
    ensures a * b > 0.0
  {
  }

  /** int(v): truncation toward zero. */
  function Trunc(v: real): (i: int)
    ensures 0.0 <= v ==> 0 <= i && i as real <= v < (i + 1) as real
    ensures v < 0.0 ==> i <= 0 && (i - 1) as real < v <= i as real
  {
    if v >= 0.0 then v.Floor else -((-v).Floor)
  }

  predicate StrictlyIncreasing(xs: seq<int>)
  {
    forall i, j :: 0 <= i < j < |xs| ==> xs[i] < xs[j]
  }

  function InsertDistinct(x: int, xs: seq<int>): (r: seq<int>)
    requires StrictlyIncreasing(xs)
    ensures StrictlyIncreasing(r)
    ensures forall v :: v in r <==> v == x || v in xs
  {
    if xs == [] then [x]
    else if x < xs[0] then [x] + xs
    else if x == xs[0] then xs
    else
      var rest := InsertDistinct(x, xs[1..]);
      assert forall v :: v in xs <==> v == xs[0] || v in xs[1..];
      assert forall j :: 0 <= j < |rest| ==> rest[j] in rest;
      assert forall j :: 0 <= j < |rest| ==> xs[0] < rest[j];
      [xs[0]] + rest
  }

  /** np.unique: the distinct values, in increasing order. */
  function Unique(xs: seq<int>): (r: seq<int>)
    ensures StrictlyIncreasing(r)
    ensures forall v :: v in r <==> v in xs
    ensures |r| <= |xs|
  {
    if xs == [] then []
    else
      var rest := Unique(xs[1..]);
      assert forall v :: v in xs <==> v == xs[0] || v in xs[1..];
      var r := InsertDistinct(xs[0], rest);
      DistinctLength(r, xs);
      r
  }

  /** A strictly increasing sequence drawn from xs is no longer than xs. */
  lemma DistinctLength(r: seq<int>, xs: seq<int>)
    requires StrictlyIncreasing(r)
    requires forall v :: v in r ==> v in xs
    ensures |r| <= |xs|
  {
    var distinct := set i | 0 <= i < |r| :: r[i];
    var img := set v | v in xs;
    forall v | v in distinct ensures v in img {
      var i :| 0 <= i < |r| && r[i] == v;
      assert v in r;
    }
    SetOfSeqSize(xs);
    StrictSetSize(r);
    SubsetCard(distinct, img);
  }

  lemma SubsetCard(a: set<int>, b: set<int>)
    requires a <= b
    ensures |a| <= |b|
  {
    assert b == a + (b - a);
  }

  lemma {:induction false} SetOfSeqSize(xs: seq<int>)
    ensures |set v | v in xs| <= |xs|
  {
    if xs != [] {
      SetOfSeqSize(xs[1..]);
      assert (set v | v in xs) == {xs[0]} + (set v | v in xs[1..]);
    }
  }

  lemma {:induction false} StrictSetSize(r: seq<int>)
    requires StrictlyIncreasing(r)
    ensures |set i | 0 <= i < |r| :: r[i]| == |r|
  {
    if r != [] {
      StrictSetSize(r[1..]);
      var s := set i | 0 <= i < |r| :: r[i];
      var t := set i | 0 <= i < |r[1..]| :: r[1..][i];
      assert s == {r[0]} + t by {
        forall v | v in s ensures v in {r[0]} + t {
          var i :| 0 <= i < |r| && r[i] == v;
          if i > 0 { assert r[1..][i - 1] == v; }
        }
      }
      assert r[0] !in t;
    }
  }

  function TruncAll(xs: seq<real>): (r: seq<int>)
    ensures |r| == |xs|
    ensures forall i :: 0 <= i < |xs| ==> r[i] == Trunc(xs[i])
  {
    seq(|xs|, i requires 0 <= i < |xs| => Trunc(xs[i]))
  }

  function AsReals(xs: seq<int>): (r: seq<real>)
    ensures |r| == |xs|
  {
    seq(|xs|, i requires 0 <= i < |xs| => xs[i] as real)
  }

  /**
   * The points of one parameter's axis before any truncation. On a log scale
   * the cells are laid out between the logarithms of the bounds and mapped
   * back with the exponential (np.log and e^x are foreign and passed in).
   */
  function GridPoints(p: Hyperparameter, steps: nat, exp: real -> real, ln: real -> real): (r: seq<real>)
    requires steps >= 1
    ensures |r| == steps
  {
    if p.log then
      var cells := CellCentres(ln(p.lower), ln(p.upper), steps);
      seq(steps, k requires 0 <= k < steps => exp(cells[k]))
    else CellCentres(p.lower, p.upper, steps)
  }

  /**
   * A linear axis's points are the cell centres of [lower, upper]; a log
   * axis's k-th point is the exponential of the k-th cell centre of
   * [ln lower, ln upper]. CellCentresAt gives the centres in closed form.
   */
  lemma GridPointAt(p: Hyperparameter, steps: nat, exp: real -> real, ln: real -> real, k: nat)
    requires steps >= 1 && k < steps
    ensures !p.log ==> GridPoints(p, steps, exp, ln)[k] == CellCentres(p.lower, p.upper, steps)[k]
    ensures p.log ==> GridPoints(p, steps, exp, ln)[k] == exp(CellCentres(ln(p.lower), ln(p.upper), steps)[k])
  {
  }

  /** The values of one parameter's axis: its grid points, or for an integer parameter their distinct truncations in increasing order. */
  function AxisValues(p: Hyperparameter, steps: nat, exp: real -> real, ln: real -> real): (r: seq<real>)
    requires steps >= 1
    ensures |r| <= steps
    ensures !p.isInteger ==> r == GridPoints(p, steps, exp, ln)
    ensures p.isInteger ==> forall i, j :: 0 <= i < j < |r| ==> r[i] < r[j]
  {
    var space := GridPoints(p, steps, exp, ln);
    if p.isInteger then AsReals(Unique(TruncAll(space))) else space
  }

  /** An integer axis, linear or logarithmic, holds exactly the truncations of the grid points. */
  lemma IntegerAxisValues(p: Hyperparameter, steps: nat, exp: real -> real, ln: real -> real, v: int)
    requires steps >= 1 && p.isInteger
    ensures (v as real) in AxisValues(p, steps, exp, ln) <==>
      exists k :: 0 <= k < steps && Trunc(GridPoints(p, steps, exp, ln)[k]) == v
  {
    var space := GridPoints(p, steps, exp, ln);
    var u := Unique(TruncAll(space));
    var r := AsReals(u);
    assert r == AxisValues(p, steps, exp, ln);
    if (v as real) in r {
      var i :| 0 <= i < |r| && r[i] == v as real;
      assert u[i] == v;
      assert v in TruncAll(space);
    }
    if exists k :: 0 <= k < steps && Trunc(space[k]) == v {
      var k :| 0 <= k < steps && Trunc(space[k]) == v;
      assert TruncAll(space)[k] == v;
      assert v in u;
      var i :| 0 <= i < |u| && u[i] == v;
      assert r[i] == v as real;
    }
  }

  /**
   * One axis for a step count that may be 0: with no steps, the half-cell
   * offset of a log axis is infinite and np.logspace with 0 points gives an
   * empty axis.
   */
  function AxisOf(p: Hyperparameter, steps: nat, exp: real -> real, ln: real -> real): (r: seq<real>)
    ensures |r| <= steps
  {
    if steps == 0 then [] else AxisValues(p, steps, exp, ln)
  }

  /**
   * The per-parameter loop of get_hpo_test_data: with no parameters nothing is
   * planned; with three or more the step count is None and the first division
   * by it raises; with no test samples the first parameter on a linear scale
   * divides by zero.
   */
  method PlanAxes(params: seq<Hyperparameter>, nTestSamples: nat, exp: real -> real, ln: real -> real)
    returns (r: Result<seq<seq<real>>, GridError>)
    ensures |params| >= 3 <==> r == Err(DivisionByNone)
    ensures r == Err(DivisionByZero) <==>
      |params| <= 2 && nTestSamples == 0 && exists i :: 0 <= i < |params| && !params[i].log
    ensures r.Ok? ==> |r.value| == |params|
    ensures r.Ok? ==> forall i :: 0 <= i < |params| ==>
      r.value[i] == AxisOf(params[i], TestSteps(|params|, nTestSamples).value, exp, ln)
  {
    var steps := TestSteps(|params|, nTestSamples);
    var axes: seq<seq<real>> := [];
    var i := 0;
    while i < |params|
      invariant 0 <= i <= |params|
      invariant |axes| == i
      invariant i > 0 ==> steps.Some?
      invariant forall j :: 0 <= j < i ==> steps.Some? && axes[j] == AxisOf(params[j], steps.value, exp, ln)
      invariant forall j :: 0 <= j < i ==> !(nTestSamples == 0 && !params[j].log)
    {
      if steps.None? {
        return Err(DivisionByNone);
      }
      assert steps.value == 0 <==> nTestSamples == 0 by {
        if |params| == 2 {
          assert steps.value * steps.value <= nTestSamples < (steps.value + 1) * (steps.value + 1);
        }
      }
      if steps.value == 0 && !params[i].log {
        return Err(DivisionByZero);
      }
      axes := axes + [AxisOf(params[i], steps.value, exp, ln)];
      i := i + 1;
    }
    r := Ok(axes);
  }

  /**
   * np.meshgrid of two axes (default xy indexing): row n holds the points
   * (xs[m], ys[n]) for every m.
   */
  function Meshgrid(xs: seq<real>, ys: seq<real>): (g: seq<seq<(real, real)>>)
    ensures |g| == |ys|
    ensures forall n :: 0 <= n < |ys| ==> |g[n]| == |xs|
    ensures forall n, m :: 0 <= n < |ys| && 0 <= m < |xs| ==> g[n][m] == (xs[m], ys[n])
  {
    seq(|ys|, n requires 0 <= n < |ys| => seq(|xs|, m requires 0 <= m < |xs| => (xs[m], ys[n])))
  }

  /** The test inputs built from the planned axes. */
  function TestInputsOf(axes: seq<seq<real>>): TestInputs
  {
    if |axes| == 1 then Line(axes[0])
    else if |axes| == 2 then Grid(Meshgrid(axes[0], axes[1]))
    else NotSupported
  }

  /** A two-parameter test grid never has more points than the samples asked for. */
  lemma GridWithinBudget(params: seq<Hyperparameter>, nTestSamples: nat, exp: real -> real, ln: real -> real)
    requires |params| == 2
    ensures var steps := TestSteps(2, nTestSamples).value;
      var a0 := AxisOf(params[0], steps, exp, ln);
      var a1 := AxisOf(params[1], steps, exp, ln);
      |a0| * |a1| <= nTestSamples
  {
    var steps := TestSteps(2, nTestSamples).value;
    var a0 := AxisOf(params[0], steps, exp, ln);
    var a1 := AxisOf(params[1], steps, exp, ln);
    MulBoth(|a0|, |a1|, steps, steps);
  }
}
