/**
 * The accuracy-versus-complexity trade-off of a parsimony sweep
 * (plot_complexity_vs_rmse.py): the per-parsimony records are filtered and
 * averaged into one point each, and the elbow point is chosen as the first
 * point through which the line of the extremes' slope has no point strictly
 * below it. Reals stand for the source's floating-point numbers.
 */
module Elbow {
  import opened Wrappers
  import opened Stats

  /** Only records of this sample size enter the plot. */
  const EvaluatedSamples: int := 200

  /** The operation count recorded for an expression that could not be scored. */
  const UnknownComplexity: int := -1

  /** One row of error_metrics.csv (only the columns the plot uses). */
  datatype ErrorRow = ErrorRow(nSamples: int, mseTest: real)

  /** One row of complexity.csv (only the columns the plot uses). */
  datatype ComplexityRow = ComplexityRow(nSamples: int, programOperations: int)

  /** The two tables read for one parsimony coefficient. */
  datatype ParsimonyRuns = ParsimonyRuns(parsimony: real, errors: seq<ErrorRow>, complexity: seq<ComplexityRow>)

  /** One aggregated point: mean operation count and mean test RMSE. */
  datatype Point = Point(parsimony: real, complexity: real, rmseTest: real)

  /** The error rows kept: those with 200 samples, in their order. */
  function ErrorsUsed(rows: seq<ErrorRow>): (r: seq<ErrorRow>)
    ensures forall row :: row in r <==> row in rows && row.nSamples == EvaluatedSamples
    ensures |r| <= |rows|
  {
    if rows == [] then []
    else (if rows[0].nSamples == EvaluatedSamples then [rows[0]] else []) + ErrorsUsed(rows[1..])
  }

  /** The complexity rows kept: those with 200 samples whose count is known, in their order. */
  function ComplexityUsed(rows: seq<ComplexityRow>): (r: seq<ComplexityRow>)
    ensures forall row :: row in r <==>
      row in rows && row.nSamples == EvaluatedSamples && row.programOperations != UnknownComplexity
    ensures |r| <= |rows|
  {
    if rows == [] then []
    else
      (if rows[0].nSamples == EvaluatedSamples && rows[0].programOperations != UnknownComplexity
       then [rows[0]] else [])
      + ComplexityUsed(rows[1..])
  }

  /** Filtering is row by row: the kept rows of a concatenation are the kept rows of each part, in order. */
  lemma {:induction false} ErrorsUsedAppend(a: seq<ErrorRow>, b: seq<ErrorRow>)
    ensures ErrorsUsed(a + b) == ErrorsUsed(a) + ErrorsUsed(b)
  {
    if a == [] {
      assert a + b == b;
    } else {
      assert (a + b)[1..] == a[1..] + b;
      ErrorsUsedAppend(a[1..], b);
    }
  }

  /** A single error row is kept exactly when it has 200 samples. */
  lemma ErrorsUsedRow(row: ErrorRow)
    ensures ErrorsUsed([row]) == if row.nSamples == EvaluatedSamples then [row] else []
  {
    assert [row][1..] == [];
  }

  /** Filtering is row by row: the kept rows of a concatenation are the kept rows of each part, in order. */
  lemma {:induction false} ComplexityUsedAppend(a: seq<ComplexityRow>, b: seq<ComplexityRow>)
    ensures ComplexityUsed(a + b) == ComplexityUsed(a) + ComplexityUsed(b)
  {
    if a == [] {
      assert a + b == b;
    } else {
      assert (a + b)[1..] == a[1..] + b;
      ComplexityUsedAppend(a[1..], b);
    }
  }

  /** A single complexity row is kept exactly when it has 200 samples and a known count. */
  lemma ComplexityUsedRow(row: ComplexityRow)
    ensures ComplexityUsed([row])
            == if row.nSamples == EvaluatedSamples && row.programOperations != UnknownComplexity then [row] else []
  {
    assert [row][1..] == [];
  }

  /** The per-row test RMSE, sqrt(mse_test); the square root is numpy's and is passed in. */
  function Rmses(rows: seq<ErrorRow>, sqrt: real -> real): (r: seq<real>)
    ensures |r| == |rows|
  {
    seq(|rows|, i requires 0 <= i < |rows| => sqrt(rows[i].mseTest))
  }

  function Operations(rows: seq<ComplexityRow>): (r: seq<real>)
    ensures |r| == |rows|
  {
    seq(|rows|, i requires 0 <= i < |rows| => rows[i].programOperations as real)
  }

  /** Both filtered tables are non-empty, so both means exist. */
  predicate HasData(run: ParsimonyRuns)
  {
    |ErrorsUsed(run.errors)| > 0 && |ComplexityUsed(run.complexity)| > 0
  }

  /** The point of one parsimony coefficient: mean RMSE and mean operation count of the kept rows. */
  function PointOf(run: ParsimonyRuns, sqrt: real -> real): Point
    requires HasData(run)
  {
    Point(run.parsimony,
          Mean(Operations(ComplexityUsed(run.complexity))),
          Mean(Rmses(ErrorsUsed(run.errors), sqrt)))
  }

  /** A row of another sample size changes neither mean. */
  lemma OtherSizesIgnored(run: ParsimonyRuns, e: ErrorRow, c: ComplexityRow, sqrt: real -> real)
    requires HasData(run)
    requires e.nSamples != EvaluatedSamples && c.nSamples != EvaluatedSamples
    ensures HasData(run.(errors := [e] + run.errors, complexity := [c] + run.complexity))
    ensures PointOf(run.(errors := [e] + run.errors, complexity := [c] + run.complexity), sqrt) == PointOf(run, sqrt)
  {
    assert ([e] + run.errors)[1..] == run.errors;
    assert ([c] + run.complexity)[1..] == run.complexity;
    assert ErrorsUsed([e] + run.errors) == ErrorsUsed(run.errors);
    assert ComplexityUsed([c] + run.complexity) == ComplexityUsed(run.complexity);
  }

  /**
   * A complexity row with the unknown count -1 is dropped before averaging,
   * while an error row of the same unit still counts.
   */
  lemma UnknownComplexityDropped(run: ParsimonyRuns, e: ErrorRow, sqrt: real -> real)
    requires HasData(run)
    requires e.nSamples == EvaluatedSamples
    ensures var c := ComplexityRow(EvaluatedSamples, UnknownComplexity);
      var run' := run.(errors := [e] + run.errors, complexity := [c] + run.complexity);
      && HasData(run')
      && PointOf(run', sqrt).complexity == PointOf(run, sqrt).complexity
      && |ErrorsUsed(run'.errors)| == |ErrorsUsed(run.errors)| + 1
  {
    var c := ComplexityRow(EvaluatedSamples, UnknownComplexity);
    assert ([e] + run.errors)[1..] == run.errors;
    assert ([c] + run.complexity)[1..] == run.complexity;
    assert ErrorsUsed([e] + run.errors) == [e] + ErrorsUsed(run.errors);
    assert ComplexityUsed([c] + run.complexity) == ComplexityUsed(run.complexity);
  }

  /** The mean operation count lies between the smallest and largest kept count. */
  lemma ComplexityWithinCounts(run: ParsimonyRuns, sqrt: real -> real, lo: int, hi: int)
    requires HasData(run)
    requires forall row :: row in ComplexityUsed(run.complexity) ==> lo <= row.programOperations <= hi
    ensures lo as real <= PointOf(run, sqrt).complexity <= hi as real
  {
    var ops := Operations(ComplexityUsed(run.complexity));
    forall i | 0 <= i < |ops| ensures lo as real <= ops[i] <= hi as real {
      assert ComplexityUsed(run.complexity)[i] in ComplexityUsed(run.complexity);
    }
    MeanBounds(ops, lo as real, hi as real);
  }

  /** The loop over the parsimony space: one point per coefficient, appended in order. */
  method Aggregate(runs: seq<ParsimonyRuns>, sqrt: real -> real) returns (points: seq<Point>)
    requires forall i :: 0 <= i < |runs| ==> HasData(runs[i])
    ensures |points| == |runs|
    ensures forall i :: 0 <= i < |runs| ==> points[i] == PointOf(runs[i], sqrt)
  {
    points := [];
    var i := 0;
    while i < |runs|
      invariant 0 <= i <= |runs|
      invariant |points| == i
      invariant forall k :: 0 <= k < i ==> points[k] == PointOf(runs[k], sqrt)
    {
      var errors := ErrorsUsed(runs[i].errors);
      var complexity := ComplexityUsed(runs[i].complexity);
      var joined := Point(runs[i].parsimony, Mean(Operations(complexity)), Mean(Rmses(errors, sqrt)));
      points := points + [joined];
      i := i + 1;
    }
  }

  /** k is a point of minimum test RMSE (lower right of the plot). */
  predicate IsLowerRight(points: seq<Point>, k: nat)
  {
    k < |points| && forall i :: 0 <= i < |points| ==> points[k].rmseTest <= points[i].rmseTest
  }

  /** k is a point of maximum test RMSE (upper left of the plot). */
  predicate IsUpperLeft(points: seq<Point>, k: nat)
  {
    k < |points| && forall i :: 0 <= i < |points| ==> points[i].rmseTest <= points[k].rmseTest
  }

  /** One choice of the lower-right point; the source's sort does not fix which one among ties. */
  function LowestRmse(points: seq<Point>): (k: nat)
    requires |points| > 0
    ensures IsLowerRight(points, k)
  {
    if |points| == 1 then 0
    else
      var k := LowestRmse(points[1..]) + 1;
      if points[0].rmseTest <= points[k].rmseTest then 0 else k
  }

  /** One choice of the upper-left point; the source's sort does not fix which one among ties. */
  function HighestRmse(points: seq<Point>): (k: nat)
    requires |points| > 0
    ensures IsUpperLeft(points, k)
  {
    if |points| == 1 then 0
    else
      var k := HighestRmse(points[1..]) + 1;
      if points[0].rmseTest >= points[k].rmseTest then 0 else k
  }

  /** The slope of the line between the two extremes; defined only when their complexities differ. */
  function Slope(lowerRight: Point, upperLeft: Point): real
    requires lowerRight.complexity != upperLeft.complexity
  {
    (lowerRight.rmseTest - upperLeft.rmseTest) / (lowerRight.complexity - upperLeft.complexity)
  }

  /** The value at complexity c of the line of the given slope through p. */
  function LineAt(slope: real, p: Point, c: real): real
  {
    slope * (c - p.complexity) + p.rmseTest
  }

  /** q lies strictly below the line through p; a point on the line is not below. */
  predicate Below(q: Point, p: Point, slope: real)
  {
    q.rmseTest < LineAt(slope, p, q.complexity)
  }

  /** Candidate k is rejected when some point, itself included, lies strictly below its line. */
  predicate Rejected(points: seq<Point>, k: nat, slope: real)
    requires k < |points|
  {
    exists j :: 0 <= j < |points| && Below(points[j], points[k], slope)
  }

  /** The first candidate at or after from that is not rejected. */
  function FirstUnrejected(points: seq<Point>, slope: real, from: nat): (r: Option<nat>)
    requires from <= |points|
    ensures r.Some? ==> from <= r.value < |points| && !Rejected(points, r.value, slope)
    ensures r.Some? ==> forall k :: from <= k < r.value ==> Rejected(points, k, slope)
    ensures r.None? ==> forall k :: from <= k < |points| ==> Rejected(points, k, slope)
    decreases |points| - from
  {
    if from == |points| then None
    else if !Rejected(points, from, slope) then Some(from)
    else FirstUnrejected(points, slope, from + 1)
  }

  /**
   * The nested scan of the source: for each candidate in order, look for a
   * point below its line and stop at the first point found; stop at the first
   * candidate for which none is found.
   */
  method SelectElbow(points: seq<Point>, slope: real) returns (selected: Option<nat>)
    ensures selected == FirstUnrejected(points, slope, 0)
  {
    selected := None;
    var i := 0;
    while i < |points|
      invariant 0 <= i <= |points|
      invariant FirstUnrejected(points, slope, 0) == FirstUnrejected(points, slope, i)
    {
      var pointsBelow := false;
      var j := 0;
      while j < |points|
        invariant 0 <= j <= |points|
        invariant !pointsBelow
        invariant forall m :: 0 <= m < j ==> !Below(points[m], points[i], slope)
      {
        if Below(points[j], points[i], slope) {
          pointsBelow := true;
          break;
        }
        j := j + 1;
      }
      if !pointsBelow {
        selected := Some(i);
        return;
      }
      i := i + 1;
    }
  }

  /** A minimiser of rmse - slope * complexity has no point below its line. */
  function BestScore(points: seq<Point>, slope: real): (k: nat)
    requires |points| > 0
    ensures k < |points|
    ensures forall i :: 0 <= i < |points| ==>
      points[k].rmseTest - slope * points[k].complexity <= points[i].rmseTest - slope * points[i].complexity
  {
    if |points| == 1 then 0
    else
      var k := BestScore(points[1..], slope) + 1;
      if points[0].rmseTest - slope * points[0].complexity <= points[k].rmseTest - slope * points[k].complexity
      then 0 else k
  }

  /** Whatever the slope, a non-empty set of points always yields a selection. */
  lemma ElbowAlwaysSelects(points: seq<Point>, slope: real)
    requires |points| > 0
    ensures FirstUnrejected(points, slope, 0).Some?
  {
    var k := BestScore(points, slope);
    forall j | 0 <= j < |points| ensures !Below(points[j], points[k], slope) {
      var q, p := points[j], points[k];
      assert slope * (q.complexity - p.complexity) == slope * q.complexity - slope * p.complexity;
    }
    assert !Rejected(points, k, slope);
  }

  /**
   * The worked example: (2, 0.30), (5, 0.10), (10, 0.08). The extremes are the
   * first and the last point, the slope is -0.0275 and the selected point is
   * (5, 0.10).
   */
  lemma WorkedExample()
    ensures var points := [Point(0.0001, 2.0, 0.30), Point(0.00025, 5.0, 0.10), Point(0.0005, 10.0, 0.08)];
      && LowestRmse(points) == 2 && HighestRmse(points) == 0
      && Slope(points[2], points[0]) == -0.0275
      && FirstUnrejected(points, -0.0275, 0) == Some(1)
  {
    var points := [Point(0.0001, 2.0, 0.30), Point(0.00025, 5.0, 0.10), Point(0.0005, 10.0, 0.08)];
    assert Below(points[1], points[0], -0.0275);
    assert Rejected(points, 0, -0.0275);
    forall j | 0 <= j < 3 ensures !Below(points[j], points[1], -0.0275) {
    }
  }
}
