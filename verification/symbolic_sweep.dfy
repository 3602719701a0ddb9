/**
 * The learning-curve sweep of run_symbolic_explanation.py: which run
 * configuration a job runs, how the run is named, which sample file each
 * sample size reads, which training rows each sampling seed gets, the fixed
 * regression-seed schedule, and the three records appended per unit. The
 * symbolic regression itself, the scoring and sympy's operation count are
 * passed in as functions; reading a sample file is a function from its name
 * to its rows.
 */
module SymbolicSweep {
  import opened Wrappers
  import opened Text
  import CS = ConvertSymb

  /** Number of regression seeds per training set. */
  const NSeeds: nat := 3

  /** The data sets a classifier is crossed with, in order. */
  const DataSets: seq<string> := ["digits", "iris"]

  /** Configurations of the initial design per hyperparameter. */
  const ConfigsPerHyperparameter: nat := 8

  /** Digits the converted expressions are rounded to. */
  const Decimals: int := 3

  /** What the job runs: a named test function or a classifier by name. */
  datatype ModelChoice = Function(name: string) | Classifier(name: string)

  /** The table of optimised hyperparameters per classifier; None for any other name. */
  function Hyperparameters(model: string): (r: Option<seq<string>>)
    ensures r.Some? <==> model == "MLP" || model == "SVM" || model == "BDT" || model == "DT"
    ensures r.Some? ==> |r.value| == (if model == "MLP" || model == "SVM" then 4 else 2)
    ensures r.Some? ==> forall i, j :: 0 <= i < j < |r.value| ==> r.value[i] != r.value[j]
  {
    if model == "MLP" then
      Some(["optimize_n_neurons", "optimize_n_layer", "optimize_learning_rate_init", "optimize_max_iter"])
    else if model == "SVM" then
      Some(["optimize_C", "optimize_degree", "optimize_coef", "optimize_gamma"])
    else if model == "BDT" then
      Some(["optimize_learning_rate", "optimize_n_estimators"])
    else if model == "DT" then
      Some(["optimize_max_depth", "optimize_min_samples_leaf"])
    else None
  }

  /** The 2-combinations of xs in itertools order: (xs[0], xs[1]), (xs[0], xs[2]), …, (xs[1], xs[2]), … */
  function Pairs<T>(xs: seq<T>): (r: seq<(T, T)>)
    ensures |r| == |xs| * (|xs| - 1) / 2
  {
    if |xs| <= 1 then []
    else seq(|xs| - 1, k requires 0 <= k < |xs| - 1 => (xs[0], xs[k + 1])) + Pairs(xs[1..])
  }

  /** Every 2-combination is some (xs[i], xs[j]) with i < j. */
  lemma {:induction false} PairsFromIndices<T>(xs: seq<T>, p: (T, T))
    requires p in Pairs(xs)
    ensures exists i, j :: 0 <= i < j < |xs| && p == (xs[i], xs[j])
  {
    var head := seq(|xs| - 1, k requires 0 <= k < |xs| - 1 => (xs[0], xs[k + 1]));
    assert Pairs(xs) == head + Pairs(xs[1..]);
    if p in head {
      var k :| 0 <= k < |head| && head[k] == p;
      assert p == (xs[0], xs[k + 1]);
    } else {
      PairsFromIndices(xs[1..], p);
      var i, j :| 0 <= i < j < |xs[1..]| && p == (xs[1..][i], xs[1..][j]);
      assert p == (xs[i + 1], xs[j + 1]);
    }
  }

  /** Exactly the pairs (xs[i], xs[j]) with i < j occur. */
  lemma PairsMembers<T>(xs: seq<T>)
    ensures forall i, j :: 0 <= i < j < |xs| ==> (xs[i], xs[j]) in Pairs(xs)
    ensures forall p :: p in Pairs(xs) ==> exists i, j :: 0 <= i < j < |xs| && p == (xs[i], xs[j])
  {
    forall i, j | 0 <= i < j < |xs| ensures (xs[i], xs[j]) in Pairs(xs) {
      PairsAt(xs, i, j);
    }
    forall p | p in Pairs(xs) ensures exists i, j :: 0 <= i < j < |xs| && p == (xs[i], xs[j]) {
      PairsFromIndices(xs, p);
    }
  }

  /** Where (xs[i], xs[j]) sits among the 2-combinations of n elements: the i earlier runs hold n-1, n-2, … pairs. */
  function PairPosition(n: nat, i: nat, j: nat): int
  {
    i * (2 * n - i - 1) / 2 + (j - i - 1)
  }

  /** Skipping the run of pairs led by the first element shifts every later position by n - 1. */
  lemma PairPositionStep(n: nat, i: nat, j: nat)
    requires 1 <= i < j < n
    ensures PairPosition(n, i, j) == (n - 1) + PairPosition(n - 1, i - 1, j - 1)
  {
    var c := 2 * n - i - 1;
    assert i * c == (i - 1) * c + c;
    assert (i - 1) * c == (i - 1) * (c - 1) + (i - 1);
    assert i * c == (i - 1) * (2 * (n - 1) - (i - 1) - 1) + 2 * (n - 1);
  }

  /** The pair (xs[i], xs[j]) with i < j is at PairPosition(|xs|, i, j), as itertools orders them. */
  lemma {:induction false} PairsAt<T>(xs: seq<T>, i: nat, j: nat)
    requires i < j < |xs|
    ensures 0 <= PairPosition(|xs|, i, j) < |Pairs(xs)|
    ensures Pairs(xs)[PairPosition(|xs|, i, j)] == (xs[i], xs[j])
  {
    var head := seq(|xs| - 1, k requires 0 <= k < |xs| - 1 => (xs[0], xs[k + 1]));
    assert Pairs(xs) == head + Pairs(xs[1..]);
    if i == 0 {
      assert PairPosition(|xs|, i, j) == j - 1;
      assert Pairs(xs)[j - 1] == head[j - 1];
    } else {
      PairsAt(xs[1..], i - 1, j - 1);
      PairPositionStep(|xs|, i, j);
      var q := PairPosition(|xs| - 1, i - 1, j - 1);
      assert Pairs(xs)[|head| + q] == Pairs(xs[1..])[q];
    }
  }

  /** One classifier run configuration: both flags set, and the data set. */
  datatype ClassifierConfig = ClassifierConfig(first: string, second: string, dataSet: string)

  /** Every pair crossed with every data set, the data set varying fastest. */
  function Cross(pairs: seq<(string, string)>, dataSets: seq<string>): (r: seq<ClassifierConfig>)
    ensures |r| == |pairs| * |dataSets|
  {
    if pairs == [] then []
    else
      seq(|dataSets|, d requires 0 <= d < |dataSets| => ClassifierConfig(pairs[0].0, pairs[0].1, dataSets[d]))
      + Cross(pairs[1..], dataSets)
  }

  lemma MulSucc(a: nat, m: nat)
    ensures (a + 1) * m == a * m + m
  {
  }

  /** The configuration at position p * |dataSets| + d is pair p with data set d. */
  lemma {:induction false} CrossAt(pairs: seq<(string, string)>, dataSets: seq<string>, p: nat, d: nat)
    requires p < |pairs| && d < |dataSets|
    ensures p * |dataSets| + d < |Cross(pairs, dataSets)|
    ensures Cross(pairs, dataSets)[p * |dataSets| + d] == ClassifierConfig(pairs[p].0, pairs[p].1, dataSets[d])
  {
    var m := |dataSets|;
    var block := seq(m, k requires 0 <= k < m => ClassifierConfig(pairs[0].0, pairs[0].1, dataSets[k]));
    assert Cross(pairs, dataSets) == block + Cross(pairs[1..], dataSets);
    if p == 0 {
      assert Cross(pairs, dataSets)[d] == block[d];
    } else {
      CrossAt(pairs[1..], dataSets, p - 1, d);
      var i := (p - 1) * m + d;
      MulSucc(p - 1, m);
      assert p * m + d == m + i;
      assert Cross(pairs, dataSets)[m + i] == Cross(pairs[1..], dataSets)[i];
    }
  }

  /** Every configuration takes its pair from pairs and its data set from dataSets. */
  lemma {:induction false} CrossMembers(pairs: seq<(string, string)>, dataSets: seq<string>)
    ensures forall c :: c in Cross(pairs, dataSets) ==> (c.first, c.second) in pairs && c.dataSet in dataSets
  {
    if pairs != [] {
      CrossMembers(pairs[1..], dataSets);
      var block := seq(|dataSets|, d requires 0 <= d < |dataSets| => ClassifierConfig(pairs[0].0, pairs[0].1, dataSets[d]));
      assert Cross(pairs, dataSets) == block + Cross(pairs[1..], dataSets);
      forall c | c in Cross(pairs, dataSets) ensures (c.first, c.second) in pairs && c.dataSet in dataSets {
        if c in block {
          var d :| 0 <= d < |block| && block[d] == c;
          assert (c.first, c.second) == pairs[0];
        } else {
          assert c in Cross(pairs[1..], dataSets);
          assert (c.first, c.second) in pairs[1..];
        }
      }
    }
  }

  /** The nested loop over the 2-combinations and the data sets. */
  method EnumerateConfigs(hyperparams: seq<string>, dataSets: seq<string>) returns (configs: seq<ClassifierConfig>)
    ensures configs == Cross(Pairs(hyperparams), dataSets)
  {
    var pairs := Pairs(hyperparams);
    configs := [];
    var p := 0;
    while p < |pairs|
      invariant 0 <= p <= |pairs|
      invariant configs + Cross(pairs[p..], dataSets) == Cross(pairs, dataSets)
    {
      var d := 0;
      ghost var before := configs;
      while d < |dataSets|
        invariant 0 <= d <= |dataSets|
        invariant configs == before + seq(d, k requires 0 <= k < d => ClassifierConfig(pairs[p].0, pairs[p].1, dataSets[k]))
      {
        configs := configs + [ClassifierConfig(pairs[p].0, pairs[p].1, dataSets[d])];
        d := d + 1;
      }
      assert pairs[p..][1..] == pairs[p + 1..];
      p := p + 1;
    }
  }

  /** Python indexing of a list: negative positions count from the end; anything else raises. */
  function PyIndex<T>(xs: seq<T>, i: int): Option<T>
  {
    if 0 <= i < |xs| then Some(xs[i])
    else if -|xs| <= i < 0 then Some(xs[|xs| + i])
    else None
  }

  /** What the job runs: the name used in run names, the postfix, and the classifier configuration if any. */
  datatype Setup = Setup(functionName: string, dataSetPostfix: string, config: Option<ClassifierConfig>)

  /** combinations(None, 2) raises a TypeError; an index outside the list raises an IndexError. */
  datatype SetupError = NoHyperparameterTable | JobOutOfRange

  /** The job's setup: a named function runs alone; a classifier runs the job_id-th configuration. */
  function SetupOf(model: ModelChoice, jobId: int): (r: Result<Setup, SetupError>)
    ensures model.Function? ==> r == Ok(Setup(model.name, "", None))
    ensures model.Classifier? ==> (r == Err(NoHyperparameterTable) <==> Hyperparameters(model.name).None?)
    ensures model.Classifier? && Hyperparameters(model.name).Some? ==>
      var k := |Hyperparameters(model.name).value|;
      (r.Ok? <==> -(k * (k - 1) / 2 * |DataSets|) <= jobId < k * (k - 1) / 2 * |DataSets|)
    ensures r.Ok? && model.Classifier? ==>
      r.value.config.Some? && r.value.functionName == model.name
      && r.value.dataSetPostfix == "_" + r.value.config.value.dataSet
    ensures model.Classifier? && Hyperparameters(model.name).Some? ==>
      var configs := Cross(Pairs(Hyperparameters(model.name).value), DataSets);
      (0 <= jobId < |configs| ==> r.Ok? && r.value.config == Some(configs[jobId]))
      && (-|configs| <= jobId < 0 ==> r.Ok? && r.value.config == Some(configs[|configs| + jobId]))
  {
    match model
    case Function(name) => Ok(Setup(name, "", None))
    case Classifier(name) =>
      match Hyperparameters(name)
      case None => Err(NoHyperparameterTable)
      case Some(hps) =>
        match PyIndex(Cross(Pairs(hps), DataSets), jobId)
        case None => Err(JobOutOfRange)
        case Some(c) => Ok(Setup(name, "_" + c.dataSet, Some(c)))
  }

  /** A classifier job count: SVM and MLP have 12 jobs, BDT and DT have 2. */
  lemma JobCounts()
    ensures |Cross(Pairs(Hyperparameters("MLP").value), DataSets)| == 12
    ensures |Cross(Pairs(Hyperparameters("SVM").value), DataSets)| == 12
    ensures |Cross(Pairs(Hyperparameters("BDT").value), DataSets)| == 2
    ensures |Cross(Pairs(Hyperparameters("DT").value), DataSets)| == 2
  {
  }

  /** The first job of a classifier is its first two hyperparameters on digits, the second on iris. */
  lemma FirstJobs(model: string)
    requires Hyperparameters(model).Some?
    ensures var hps := Hyperparameters(model).value;
      && SetupOf(Classifier(model), 0) == Ok(Setup(model, "_digits", Some(ClassifierConfig(hps[0], hps[1], "digits"))))
      && SetupOf(Classifier(model), 1) == Ok(Setup(model, "_iris", Some(ClassifierConfig(hps[0], hps[1], "iris"))))
  {
    var hps := Hyperparameters(model).value;
    var pairs := Pairs(hps);
    assert |hps| == 2 || |hps| == 4;
    assert pairs[0] == (hps[0], hps[1]);
    var configs := Cross(pairs, DataSets);
    assert |DataSets| == 2;
    assert |pairs| >= 1;
    CrossAt(pairs, DataSets, 0, 0);
    CrossAt(pairs, DataSets, 0, 1);
    assert configs[0] == ClassifierConfig(hps[0], hps[1], "digits");
    assert configs[1] == ClassifierConfig(hps[0], hps[1], "iris");
    assert PyIndex(configs, 0) == Some(configs[0]);
    assert PyIndex(configs, 1) == Some(configs[1]);
    assert "_" + "digits" == "_digits" && "_" + "iris" == "_iris";
  }

  /**
   * Hyperparameters i < j on data set d are run by job PairPosition(k, i, j) * |DataSets| + d,
   * and also by that job counted from the end of the configuration list.
   */
  lemma JobConfiguration(model: string, i: nat, j: nat, d: nat)
    requires Hyperparameters(model).Some?
    requires i < j < |Hyperparameters(model).value| && d < |DataSets|
    ensures var hps := Hyperparameters(model).value;
      var job := PairPosition(|hps|, i, j) * |DataSets| + d;
      var n := |Pairs(hps)| * |DataSets|;
      && SetupOf(Classifier(model), job)
         == Ok(Setup(model, "_" + DataSets[d], Some(ClassifierConfig(hps[i], hps[j], DataSets[d]))))
      && SetupOf(Classifier(model), job - n) == SetupOf(Classifier(model), job)
  {
    var hps := Hyperparameters(model).value;
    PairsAt(hps, i, j);
    var p := PairPosition(|hps|, i, j);
    CrossAt(Pairs(hps), DataSets, p, d);
  }

  /** "rand" when random samples are used, "smac" otherwise. */
  function RunType(useRandomSamples: bool): string
  {
    if useRandomSamples then "rand" else "smac"
  }

  /** run_type, the function name with spaces made underscores, the parameter names, then the postfix. */
  function RunName(runType: string, functionName: string, parameterNames: seq<string>, postfix: string): string
  {
    runType + "_" + ReplaceChar(functionName, ' ', '_') + "_" + Join(parameterNames, "_") + postfix
  }

  /**
   * Splitting the run name at underscores gives back the function name as
   * the second field when the run type and the function name contain
   * neither spaces nor underscores.
   */
  lemma RunNameModelField(runType: string, functionName: string, parameterNames: seq<string>, postfix: string)
    requires Free(runType, '_') && Free(functionName, '_') && Free(functionName, ' ')
    ensures var fields := Split(RunName(runType, functionName, parameterNames, postfix), '_');
      |fields| >= 2 && fields[1] == functionName
  {
    var rest := Join(parameterNames, "_") + postfix;
    assert ReplaceChar(functionName, ' ', '_') == functionName;
    assert RunName(runType, functionName, parameterNames, postfix) == runType + (['_'] + (functionName + (['_'] + rest)));
    SplitPrefix(runType, functionName + (['_'] + rest), '_');
    SplitPrefix(functionName, rest, '_');
  }

  /** The sample sizes 20, 40, …, 200 (np.linspace(20, 200, 10) cast to int). */
  function SampleSizes(): (r: seq<nat>)
    ensures |r| == 10 && r[0] == 20 && r[9] == 200
    ensures forall i, j :: 0 <= i < j < |r| ==> r[i] < r[j]
  {
    seq(10, i requires 0 <= i < 10 => 20 + 20 * i)
  }

  /** True when 0.25 * n is below the initial design's size n_params * 8. */
  predicate OwnSampleFile(n: nat, nParams: nat)
  {
    0.25 * (n as real) < (nParams * ConfigsPerHyperparameter) as real
  }

  /** The sample file of size n: its own file, or the file of the largest size, 200, formatted as the float "200.0". */
  function SampleFileName(n: nat, nParams: nat): string
  {
    "samples_" + (if OwnSampleFile(n, nParams) then NatToString(n) else NatToString(200) + ".0") + ".csv"
  }

  /** The own file is read exactly when n < 32 * n_params; otherwise "samples_200.0.csv". */
  lemma SampleFileRule(n: nat, nParams: nat)
    ensures OwnSampleFile(n, nParams) <==> n < 32 * nParams
    ensures OwnSampleFile(n, nParams) ==> SampleFileName(n, nParams) == "samples_" + NatToString(n) + ".csv"
    ensures !OwnSampleFile(n, nParams) ==> SampleFileName(n, nParams) == "samples_" + NatToString(200) + ".0.csv"
  {
  }

  /** With two hyperparameters, sizes up to 60 read their own file and sizes from 80 read the 200.0 file. */
  lemma TwoParameterFiles()
    ensures forall i :: 0 <= i < 3 ==> OwnSampleFile(SampleSizes()[i], 2)
    ensures forall i :: 3 <= i < 10 ==> !OwnSampleFile(SampleSizes()[i], 2)
  {
    forall n: nat ensures OwnSampleFile(n, 2) <==> n < 64 {
      SampleFileRule(n, 2);
    }
  }

  /** One row of a sample file: its seed, the configuration and its cost. */
  datatype SampleRow = SampleRow(seed: int, config: seq<real>, cost: real)

  /** Some row carries seed s. */
  predicate HasSeed(rows: seq<SampleRow>, s: int)
  {
    exists k :: 0 <= k < |rows| && rows[k].seed == s
  }

  /** The position of the first row with seed s. */
  function FirstIndex(rows: seq<SampleRow>, s: int): (k: nat)
    requires HasSeed(rows, s)
    ensures k < |rows| && rows[k].seed == s
    ensures forall m :: 0 <= m < k ==> rows[m].seed != s
  {
    if rows[0].seed == s then 0
    else
      assert HasSeed(rows[1..], s) by {
        var k :| 0 <= k < |rows| && rows[k].seed == s;
        assert rows[1..][k - 1].seed == s;
      }
      1 + FirstIndex(rows[1..], s)
  }

  /** The distinct seeds in order of first appearance (pandas' unique). */
  function Seeds(rows: seq<SampleRow>): (r: seq<int>)
    ensures forall s :: s in r <==> HasSeed(rows, s)
    ensures forall i, j :: 0 <= i < j < |r| ==> r[i] != r[j]
  {
    if rows == [] then []
    else
      var r := Seeds(rows[..|rows| - 1]);
      if rows[|rows| - 1].seed in r then r else r + [rows[|rows| - 1].seed]
  }

  /** The seeds are listed in the order in which each first appears in the file. */
  lemma {:induction false} SeedsFirstAppearance(rows: seq<SampleRow>)
    ensures forall i, j :: 0 <= i < j < |Seeds(rows)| ==> FirstIndex(rows, Seeds(rows)[i]) < FirstIndex(rows, Seeds(rows)[j])
  {
    if rows != [] {
      var init := rows[..|rows| - 1];
      var last := rows[|rows| - 1].seed;
      var r := Seeds(init);
      SeedsFirstAppearance(init);
      forall s | HasSeed(init, s) ensures HasSeed(rows, s) && FirstIndex(rows, s) == FirstIndex(init, s) {
        var k := FirstIndex(init, s);
        assert rows[k] == init[k];
        var m := FirstIndex(rows, s);
        assert m <= k;
        assert init[m] == rows[m];
      }
      if last !in r {
        var m := FirstIndex(rows, last);
        assert !HasSeed(init, last);
        assert m == |init|;
      }
    }
  }

  /** The rows of one seed, in file order. */
  function SeedRows(rows: seq<SampleRow>, seed: int): (r: seq<SampleRow>)
    ensures forall row :: row in r <==> row in rows && row.seed == seed
    ensures |r| <= |rows|
  {
    if rows == [] then []
    else (if rows[0].seed == seed then [rows[0]] else []) + SeedRows(rows[1..], seed)
  }

  /** Selecting a seed's rows is row by row: the rows of a concatenation are those of each part, in order. */
  lemma {:induction false} SeedRowsAppend(a: seq<SampleRow>, b: seq<SampleRow>, seed: int)
    ensures SeedRows(a + b, seed) == SeedRows(a, seed) + SeedRows(b, seed)
  {
    if a == [] {
      assert a + b == b;
    } else {
      assert (a + b)[1..] == a[1..] + b;
      SeedRowsAppend(a[1..], b, seed);
    }
  }

  /** A single row is selected exactly when it carries the seed. */
  lemma SeedRowsRow(row: SampleRow, seed: int)
    ensures SeedRows([row], seed) == if row.seed == seed then [row] else []
  {
    assert [row][1..] == [];
  }

  /** The training rows: the first n rows of the seed, or all of them when there are fewer. */
  function TrainingRows(rows: seq<SampleRow>, seed: int, n: nat): (r: seq<SampleRow>)
    ensures |r| == if |SeedRows(rows, seed)| < n then |SeedRows(rows, seed)| else n
    ensures r <= SeedRows(rows, seed)
    ensures forall k :: 0 <= k < |r| ==> r[k].seed == seed
  {
    var all := SeedRows(rows, seed);
    if |all| < n then all else all[..n]
  }

  /** The index of the first seed whose rows fall short of n, or the number of seeds. */
  function FirstShortfall(seeds: seq<int>, rows: seq<SampleRow>, n: nat): (k: nat)
    ensures k <= |seeds|
    ensures forall j :: 0 <= j < k ==> |TrainingRows(rows, seeds[j], n)| == n
    ensures k < |seeds| ==> |TrainingRows(rows, seeds[k], n)| < n
  {
    if seeds == [] then 0
    else if |TrainingRows(rows, seeds[0], n)| < n then 0
    else 1 + FirstShortfall(seeds[1..], rows, n)
  }

  /** The regression seeds i * 3 for i < 3. */
  function SymbSeeds(): (r: seq<nat>)
    ensures r == [0, 3, 6]
  {
    seq(NSeeds, i requires 0 <= i < NSeeds => i * 3)
  }

  /** One unit of work: a sample size, a sampling seed and a regression seed. */
  datatype Unit = Unit(nSamples: nat, samplingSeed: int, symbSeed: nat)

  /** The pickle file a unit's fitted model is written to. */
  function ModelFileName(u: Unit): string
  {
    "n_samples" + (NatToString(u.nSamples) + ("_sampling_seed" + (IntToString(u.samplingSeed)
    + ("_symb_seed" + (NatToString(u.symbSeed) + ".pkl")))))
  }

  /** Distinct units pickle to distinct files: no unit overwrites another's model. */
  lemma ModelFileNamesDistinct(u: Unit, v: Unit)
    ensures ModelFileName(u) == ModelFileName(v) ==> u == v
  {
    if ModelFileName(u) == ModelFileName(v) {
      var lastU, lastV := NatToString(u.symbSeed) + ".pkl", NatToString(v.symbSeed) + ".pkl";
      var midU, midV := IntToString(u.samplingSeed) + ("_symb_seed" + lastU), IntToString(v.samplingSeed) + ("_symb_seed" + lastV);
      var tailU, tailV := NatToString(u.nSamples) + ("_sampling_seed" + midU), NatToString(v.nSamples) + ("_sampling_seed" + midV);
      StripPrefix("n_samples", tailU, tailV);
      DigitRunUnique(NatToString(u.nSamples), "_sampling_seed" + midU, NatToString(v.nSamples), "_sampling_seed" + midV);
      StripPrefix("_sampling_seed", midU, midV);
      IntRunUnique(u.samplingSeed, "_symb_seed" + lastU, v.samplingSeed, "_symb_seed" + lastV);
      StripPrefix("_symb_seed", lastU, lastV);
      DigitRunUnique(NatToString(u.symbSeed), ".pkl", NatToString(v.symbSeed), ".pkl");
      NatToStringInjective(u.nSamples, v.nSamples);
      NatToStringInjective(u.symbSeed, v.symbSeed);
    }
  }

  /** A fitted program: its text and its length before simplification. */
  datatype Fitted = Fitted(program: string, length: nat)

  /**
   * The foreign parts of a unit: the fit for given training rows and random
   * state, the scores of a fitted program, sympy's operation count (None
   * when it raises) and the algebra used by the conversion.
   */
  datatype Fitter = Fitter(
    fit: (seq<SampleRow>, nat) -> Fitted,
    scores: (seq<SampleRow>, Fitted) -> seq<real>,
    countOps: CS.Converted -> Option<int>,
    algebra: CS.Engine)

  datatype MetricsRow = MetricsRow(unit: Unit, scores: seq<real>)
  datatype ExprRow = ExprRow(unit: Unit, expr: CS.Converted)
  datatype ComplexityRow = ComplexityRow(unit: Unit, lengthBeforeSimplification: nat, operations: int)

  /** The three tables written after every unit. */
  datatype Tables = Tables(metrics: seq<MetricsRow>, exprs: seq<ExprRow>, complexity: seq<ComplexityRow>)

  /** Tables with their rows in step: the k-th row of each is about the same unit. */
  predicate Aligned(t: Tables)
  {
    && |t.metrics| == |t.exprs| == |t.complexity|
    && forall k :: 0 <= k < |t.metrics| ==> t.exprs[k].unit == t.metrics[k].unit && t.complexity[k].unit == t.metrics[k].unit
  }

  function Empty(): Tables { Tables([], [], []) }

  function Append(a: Tables, b: Tables): Tables
  {
    Tables(a.metrics + b.metrics, a.exprs + b.exprs, a.complexity + b.complexity)
  }

  /** The tables written so far, and whether an uncaught exception ended the sweep. */
  datatype Outcome = Outcome(tables: Tables, aborted: bool)

  /** Run a, then b unless a was aborted. */
  function AndThen(a: Outcome, b: Outcome): Outcome
  {
    if a.aborted then a else Outcome(Append(a.tables, b.tables), b.aborted)
  }

  /** The converted expression of a fitted program; any exception of the conversion records "". */
  function ConvertedExpression(f: Fitted, nParams: nat, fx: Fitter): CS.Converted
  {
    match CS.ConvertSpec(CS.Regressor(f.program), Some(nParams), Some(Decimals), fx.algebra)
    case Ok(c) => c
    case Err(_) => CS.RawText("")
  }

  /** The empty record marks exactly a program of at most 500 characters that fails to convert. */
  lemma ConversionFailureRecordedEmpty(f: Fitted, nParams: nat, fx: Fitter)
    ensures ConvertedExpression(f, nParams, fx) == CS.RawText("") <==>
      |f.program| <= CS.MaxTextLength && CS.Simplified(f.program, fx.algebra).Err?
  {
  }

  /** The three records of one unit, or None when counting the operations raises. */
  function UnitRecords(u: Unit, train: seq<SampleRow>, nParams: nat, fx: Fitter): Option<Tables>
  {
    var fitted := fx.fit(train, u.symbSeed);
    var expr := ConvertedExpression(fitted, nParams, fx);
    match fx.countOps(expr)
    case None => None
    case Some(ops) =>
      Some(Tables([MetricsRow(u, fx.scores(train, fitted))], [ExprRow(u, expr)], [ComplexityRow(u, fitted.length, ops)]))
  }

  /**
   * When counting the operations of the empty expression raises, as it does
   * for a counter that parses its argument first, a unit whose conversion
   * fails produces no records at all: the exception ends the sweep.
   */
  lemma ConversionFailureAborts(u: Unit, train: seq<SampleRow>, nParams: nat, fx: Fitter)
    requires fx.countOps(CS.RawText("")) == None
    requires var f := fx.fit(train, u.symbSeed);
      |f.program| <= CS.MaxTextLength && CS.Simplified(f.program, fx.algebra).Err?
    ensures UnitRecords(u, train, nParams, fx) == None
  {
    ConversionFailureRecordedEmpty(fx.fit(train, u.symbSeed), nParams, fx);
  }

  /** The regression seeds of one training set, in order. */
  function RecordSymb(n: nat, seed: int, train: seq<SampleRow>, symbSeeds: seq<nat>, nParams: nat, fx: Fitter): Outcome
  {
    if symbSeeds == [] then Outcome(Empty(), false)
    else
      match UnitRecords(Unit(n, seed, symbSeeds[0]), train, nParams, fx)
      case None => Outcome(Empty(), true)
      case Some(t) => AndThen(Outcome(t, false), RecordSymb(n, seed, train, symbSeeds[1..], nParams, fx))
  }

  /** The sampling seeds of one sample size, until the first one whose rows fall short. */
  function RecordSeeds(n: nat, seeds: seq<int>, rows: seq<SampleRow>, nParams: nat, fx: Fitter): Outcome
  {
    if seeds == [] then Outcome(Empty(), false)
    else
      var train := TrainingRows(rows, seeds[0], n);
      if |train| < n then Outcome(Empty(), false)
      else AndThen(RecordSymb(n, seeds[0], train, SymbSeeds(), nParams, fx), RecordSeeds(n, seeds[1..], rows, nParams, fx))
  }

  /** The sample sizes, each reading its sample file. */
  function RecordSizes(sizes: seq<nat>, nParams: nat, read: string -> seq<SampleRow>, fx: Fitter): Outcome
  {
    if sizes == [] then Outcome(Empty(), false)
    else
      var rows := read(SampleFileName(sizes[0], nParams));
      AndThen(RecordSeeds(sizes[0], Seeds(rows), rows, nParams, fx), RecordSizes(sizes[1..], nParams, read, fx))
  }

  /** Appending finished records to the tables is running them first. */
  lemma AndThenAppend(t: Tables, r: Tables, rest: Outcome)
    ensures AndThen(Outcome(t, false), AndThen(Outcome(r, false), rest)) == AndThen(Outcome(Append(t, r), false), rest)
  {
    assert t.metrics + (r.metrics + rest.tables.metrics) == (t.metrics + r.metrics) + rest.tables.metrics;
    assert t.exprs + (r.exprs + rest.tables.exprs) == (t.exprs + r.exprs) + rest.tables.exprs;
    assert t.complexity + (r.complexity + rest.tables.complexity) == (t.complexity + r.complexity) + rest.tables.complexity;
  }

  /** Running nothing after finished tables keeps them. */
  lemma AndThenEmpty(t: Tables)
    ensures AndThen(Outcome(t, false), Outcome(Empty(), false)) == Outcome(t, false)
  {
    assert Append(t, Empty()) == t;
  }

  /** The loop over the regression seeds of one training set. */
  method FitSeeds(n: nat, seed: int, train: seq<SampleRow>, nParams: nat, fx: Fitter) returns (tables: Tables, aborted: bool)
    ensures Outcome(tables, aborted) == RecordSymb(n, seed, train, SymbSeeds(), nParams, fx)
  {
    var symbSeeds := SymbSeeds();
    tables := Empty();
    aborted := false;
    var i := 0;
    while i < NSeeds
      invariant 0 <= i <= NSeeds
      invariant AndThen(Outcome(tables, false), RecordSymb(n, seed, train, symbSeeds[i..], nParams, fx))
                == RecordSymb(n, seed, train, symbSeeds, nParams, fx)
    {
      var symbSeed := i * 3;
      assert symbSeeds[i..][1..] == symbSeeds[i + 1..];
      var records := UnitRecords(Unit(n, seed, symbSeed), train, nParams, fx);
      if records.None? {
        assert Append(tables, Empty()) == tables;
        aborted := true;
        return;
      }
      AndThenAppend(tables, records.value, RecordSymb(n, seed, train, symbSeeds[i + 1..], nParams, fx));
      tables := Append(tables, records.value);
      i := i + 1;
    }
  }

  /** The records from the j-th seed on: none after a shortfall, else that seed's units and then the rest. */
  lemma RecordSeedsStep(n: nat, seeds: seq<int>, j: nat, rows: seq<SampleRow>, nParams: nat, fx: Fitter)
    requires j < |seeds|
    ensures var train := TrainingRows(rows, seeds[j], n);
      RecordSeeds(n, seeds[j..], rows, nParams, fx)
      == if |train| < n then Outcome(Empty(), false)
         else AndThen(RecordSymb(n, seeds[j], train, SymbSeeds(), nParams, fx), RecordSeeds(n, seeds[j + 1..], rows, nParams, fx))
  {
    assert seeds[j..][0] == seeds[j];
    assert seeds[j..][1..] == seeds[j + 1..];
  }

  /** The loop over the sampling seeds of one sample size; a shortfall ends it. */
  method FitSize(n: nat, rows: seq<SampleRow>, nParams: nat, fx: Fitter) returns (tables: Tables, aborted: bool)
    ensures Outcome(tables, aborted) == RecordSeeds(n, Seeds(rows), rows, nParams, fx)
  {
    var seeds := Seeds(rows);
    tables := Empty();
    aborted := false;
    var j := 0;
    while j < |seeds|
      invariant 0 <= j <= |seeds|
      invariant AndThen(Outcome(tables, false), RecordSeeds(n, seeds[j..], rows, nParams, fx))
                == RecordSeeds(n, seeds, rows, nParams, fx)
    {
      var train := TrainingRows(rows, seeds[j], n);
      RecordSeedsStep(n, seeds, j, rows, nParams, fx);
      if |train| < n {
        AndThenEmpty(tables);
        break;
      }
      var t, stop := FitSeeds(n, seeds[j], train, nParams, fx);
      if !stop {
        AndThenAppend(tables, t, RecordSeeds(n, seeds[j + 1..], rows, nParams, fx));
      }
      tables := Append(tables, t);
      if stop {
        aborted := true;
        return;
      }
      j := j + 1;
    }
  }

  /**
   * The sweep loop: for every sample size, for every sampling seed until the
   * first shortfall, for every regression seed, fit, score, convert and count,
   * and append one row to each table. An exception of the operation count
   * ends the sweep with the tables of the units already finished.
   */
  method Sweep(nParams: nat, read: string -> seq<SampleRow>, fx: Fitter) returns (tables: Tables, aborted: bool)
    ensures Outcome(tables, aborted) == RecordSizes(SampleSizes(), nParams, read, fx)
  {
    var sizes := SampleSizes();
    tables := Empty();
    aborted := false;
    var a := 0;
    while a < |sizes|
      invariant 0 <= a <= |sizes|
      invariant AndThen(Outcome(tables, false), RecordSizes(sizes[a..], nParams, read, fx))
                == RecordSizes(sizes, nParams, read, fx)
    {
      var rows := read(SampleFileName(sizes[a], nParams));
      assert sizes[a..][1..] == sizes[a + 1..];
      var t, stop := FitSize(sizes[a], rows, nParams, fx);
      if !stop {
        AndThenAppend(tables, t, RecordSizes(sizes[a + 1..], nParams, read, fx));
      }
      tables := Append(tables, t);
      if stop {
        aborted := true;
        return;
      }
      a := a + 1;
    }
  }

  /**
   * The seeds after the first one whose rows fall short are never fitted, even
   * those with enough rows: the shortfall ends the seed loop.
   */
  lemma {:induction false} ShortfallEndsSeeds(n: nat, seeds: seq<int>, rows: seq<SampleRow>, nParams: nat, fx: Fitter)
    ensures RecordSeeds(n, seeds, rows, nParams, fx)
            == RecordSeeds(n, seeds[..FirstShortfall(seeds, rows, n)], rows, nParams, fx)
  {
    if seeds != [] {
      var k := FirstShortfall(seeds, rows, n);
      var train := TrainingRows(rows, seeds[0], n);
      if |train| >= n {
        var prefix := seeds[..k];
        assert prefix != [] && prefix[0] == seeds[0] && prefix[1..] == seeds[1..][..k - 1] by {
          assert k == 1 + FirstShortfall(seeds[1..], rows, n);
        }
        var head := RecordSymb(n, seeds[0], train, SymbSeeds(), nParams, fx);
        assert RecordSeeds(n, prefix, rows, nParams, fx) == AndThen(head, RecordSeeds(n, prefix[1..], rows, nParams, fx));
        assert RecordSeeds(n, seeds, rows, nParams, fx) == AndThen(head, RecordSeeds(n, seeds[1..], rows, nParams, fx));
        ShortfallEndsSeeds(n, seeds[1..], rows, nParams, fx);
      } else {
        assert seeds[..k] == [];
      }
    }
  }

  /**
   * When no operation count raises, one training set gets exactly three
   * units, with regression seeds 0, 3 and 6 in that order.
   */
  lemma SeedSchedule(n: nat, seed: int, train: seq<SampleRow>, nParams: nat, fx: Fitter)
    requires forall s :: s in SymbSeeds() ==> UnitRecords(Unit(n, seed, s), train, nParams, fx).Some?
    ensures var o := RecordSymb(n, seed, train, SymbSeeds(), nParams, fx);
      && !o.aborted
      && |o.tables.metrics| == NSeeds
      && o.tables.metrics[0].unit == Unit(n, seed, 0)
      && o.tables.metrics[1].unit == Unit(n, seed, 3)
      && o.tables.metrics[2].unit == Unit(n, seed, 6)
  {
    var ss := SymbSeeds();
    assert ss[1..] == [3, 6] && ss[1..][1..] == [6] && ss[1..][1..][1..] == [];
    assert ss[0] in ss && ss[1] in ss && ss[2] in ss;
    assert [6][1..] == [] && [3, 6][1..] == [6];
    assert UnitRecords(Unit(n, seed, 6), train, nParams, fx).Some?;
    var none: seq<nat> := [];
    assert RecordSymb(n, seed, train, none, nParams, fx) == Outcome(Empty(), false);
    var last := RecordSymb(n, seed, train, [6], nParams, fx);
    assert last == AndThen(Outcome(UnitRecords(Unit(n, seed, 6), train, nParams, fx).value, false), Outcome(Empty(), false));
    assert !last.aborted && |last.tables.metrics| == 1 && last.tables.metrics[0].unit == Unit(n, seed, 6);
    var two := RecordSymb(n, seed, train, [3, 6], nParams, fx);
    assert !two.aborted && |two.tables.metrics| == 2 && two.tables.metrics[0].unit == Unit(n, seed, 3);
    assert two.tables.metrics[1].unit == Unit(n, seed, 6);
  }

  lemma AlignedAndThen(a: Outcome, b: Outcome)
    requires Aligned(a.tables) && Aligned(b.tables)
    ensures Aligned(AndThen(a, b).tables)
  {
  }

  /** The records of one training set keep the three tables in step. */
  lemma {:induction false} RecordSymbAligned(n: nat, seed: int, train: seq<SampleRow>, symbSeeds: seq<nat>, nParams: nat, fx: Fitter)
    ensures Aligned(RecordSymb(n, seed, train, symbSeeds, nParams, fx).tables)
  {
    if symbSeeds != [] {
      match UnitRecords(Unit(n, seed, symbSeeds[0]), train, nParams, fx)
      case None =>
      case Some(t) =>
        RecordSymbAligned(n, seed, train, symbSeeds[1..], nParams, fx);
        AlignedAndThen(Outcome(t, false), RecordSymb(n, seed, train, symbSeeds[1..], nParams, fx));
    }
  }

  lemma {:induction false} RecordSeedsAligned(n: nat, seeds: seq<int>, rows: seq<SampleRow>, nParams: nat, fx: Fitter)
    ensures Aligned(RecordSeeds(n, seeds, rows, nParams, fx).tables)
  {
    if seeds != [] && |TrainingRows(rows, seeds[0], n)| >= n {
      var train := TrainingRows(rows, seeds[0], n);
      RecordSymbAligned(n, seeds[0], train, SymbSeeds(), nParams, fx);
      RecordSeedsAligned(n, seeds[1..], rows, nParams, fx);
      AlignedAndThen(RecordSymb(n, seeds[0], train, SymbSeeds(), nParams, fx), RecordSeeds(n, seeds[1..], rows, nParams, fx));
    }
  }

  /**
   * Whatever the sweep ends with, its three tables have one row per finished
   * unit each, the k-th rows of all three tagged with the same unit.
   */
  lemma {:induction false} SweepAligned(sizes: seq<nat>, nParams: nat, read: string -> seq<SampleRow>, fx: Fitter)
    ensures Aligned(RecordSizes(sizes, nParams, read, fx).tables)
  {
    if sizes != [] {
      var rows := read(SampleFileName(sizes[0], nParams));
      RecordSeedsAligned(sizes[0], Seeds(rows), rows, nParams, fx);
      SweepAligned(sizes[1..], nParams, read, fx);
      AlignedAndThen(RecordSeeds(sizes[0], Seeds(rows), rows, nParams, fx), RecordSizes(sizes[1..], nParams, read, fx));
    }
  }
}
