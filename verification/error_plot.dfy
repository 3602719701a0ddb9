/**
 * The error-visualisation driver run_2d_error_plot.py: its run
 * configurations (dictionaries, mutated by pop), the run name and data-set
 * postfix, the choice of the evaluated sample size, the training prefix of
 * each sampling seed, and the per-seed accumulation of absolute test errors.
 * Each accumulated error grid is modelled at one grid cell: every cell is
 * updated by the same arithmetic.
 */
module ErrorPlot {
  import opened Wrappers
  import opened Text
  import opened Stats
  import SS = SymbolicSweep

  /** The number of samples whose models are evaluated. */
  const NSamples: nat := 100

  /** The largest sample size, max(N_SAMPLES_SPACING). */
  const MaxSamples: nat := 200

  /** A value of a run configuration dictionary. */
  datatype ConfValue = ModelValue(model: SS.ModelChoice) | Flag(on: bool) | DataSetName(name: Option<string>)

  /** A run configuration: a dictionary from keys to values. */
  type RunConf = map<string, ConfValue>

  /** The dictionary of one classifier configuration: the model, both flags, and the data set. */
  function ClassifierConf(model: SS.ModelChoice, c: SS.ClassifierConfig): RunConf
  {
    map["model" := ModelValue(model), c.first := Flag(true), c.second := Flag(true), "data_set_name" := DataSetName(Some(c.dataSet))]
  }

  /** The dictionaries of a classifier: every pair crossed with every data set, the data set varying fastest. */
  function ClassifierConfs(model: SS.ModelChoice, pairs: seq<(string, string)>, dataSets: seq<string>): seq<RunConf>
  {
    if pairs == [] then []
    else
      seq(|dataSets|, d requires 0 <= d < |dataSets| => ClassifierConf(model, SS.ClassifierConfig(pairs[0].0, pairs[0].1, dataSets[d])))
      + ClassifierConfs(model, pairs[1..], dataSets)
  }

  /** The classifier's dictionaries are those of the configurations the sweep enumerates, in the same order. */
  lemma {:induction false} ClassifierConfsMatchSweep(model: SS.ModelChoice, pairs: seq<(string, string)>, dataSets: seq<string>)
    ensures |ClassifierConfs(model, pairs, dataSets)| == |SS.Cross(pairs, dataSets)|
    ensures forall i :: 0 <= i < |SS.Cross(pairs, dataSets)| ==>
      ClassifierConfs(model, pairs, dataSets)[i] == ClassifierConf(model, SS.Cross(pairs, dataSets)[i])
  {
    if pairs != [] {
      ClassifierConfsMatchSweep(model, pairs[1..], dataSets);
    }
  }

  /** The configurations of one model: one for a named function, one per pair and data set for a classifier. */
  function ModelConfs(model: SS.ModelChoice, hyperparams: string -> seq<string>, dataSets: seq<string>): seq<RunConf>
  {
    match model
    case Function(_) => [FunctionConf(model)]
    case Classifier(name) => ClassifierConfs(model, SS.Pairs(hyperparams(name)), dataSets)
  }

  /** The configurations of all models, in model order. */
  function AllConfs(models: seq<SS.ModelChoice>, hyperparams: string -> seq<string>, dataSets: seq<string>): seq<RunConf>
  {
    if models == [] then [] else ModelConfs(models[0], hyperparams, dataSets) + AllConfs(models[1..], hyperparams, dataSets)
  }

  /** No hyperparameter of any classifier is named like one of the dictionary's own keys. */
  predicate KeysReserved(models: seq<SS.ModelChoice>, hyperparams: string -> seq<string>)
  {
    forall m :: m in models && m.Classifier? ==>
      forall h :: h in hyperparams(m.name) ==> h != "model" && h != "data_set_name"
  }

  /** The dictionary holds a model under "model" and a data set under "data_set_name". */
  predicate WellFormedConf(conf: RunConf)
  {
    && "model" in conf && conf["model"].ModelValue?
    && "data_set_name" in conf && conf["data_set_name"].DataSetName?
  }

  lemma ClassifierConfWellFormed(model: SS.ModelChoice, c: SS.ClassifierConfig)
    requires c.first != "model" && c.second != "model" && c.first != "data_set_name" && c.second != "data_set_name"
    ensures var conf := ClassifierConf(model, c);
      conf["model"] == ModelValue(model) && conf["data_set_name"] == DataSetName(Some(c.dataSet))
      && conf[c.first] == Flag(true) && conf[c.second] == Flag(true)
  {
  }

  /** The dictionaries of one model are well formed when none of its hyperparameters takes a reserved name. */
  lemma ModelConfsWellFormed(model: SS.ModelChoice, hyperparams: string -> seq<string>, dataSets: seq<string>)
    requires model.Classifier? ==> forall h :: h in hyperparams(model.name) ==> h != "model" && h != "data_set_name"
    ensures forall i :: 0 <= i < |ModelConfs(model, hyperparams, dataSets)| ==> WellFormedConf(ModelConfs(model, hyperparams, dataSets)[i])
  {
    if model.Classifier? {
      var r := ModelConfs(model, hyperparams, dataSets);
      var pairs := SS.Pairs(hyperparams(model.name));
      var cross := SS.Cross(pairs, dataSets);
      ClassifierConfsMatchSweep(model, pairs, dataSets);
      SS.CrossMembers(pairs, dataSets);
      SS.PairsMembers(hyperparams(model.name));
      var xs := hyperparams(model.name);
      forall i | 0 <= i < |r|
        ensures WellFormedConf(r[i])
      {
        var c := cross[i];
        assert c in cross;
        assert (c.first, c.second) in pairs;
        var a, b :| 0 <= a < b < |xs| && (c.first, c.second) == (xs[a], xs[b]);
        assert xs[a] in xs && xs[b] in xs;
        ClassifierConfWellFormed(model, c);
      }
    }
  }

  /**
   * Every configuration holds its model under "model" and a data set entry,
   * provided no hyperparameter is itself called "model" or "data_set_name"
   * (a later key of a dictionary display overwrites an earlier one).
   */
  lemma {:induction false} ConfsWellFormed(models: seq<SS.ModelChoice>, hyperparams: string -> seq<string>, dataSets: seq<string>)
    requires KeysReserved(models, hyperparams)
    ensures forall conf: RunConf :: conf in AllConfs(models, hyperparams, dataSets) ==> WellFormedConf(conf)
  {
    if models != [] {
      assert models[0] in models;
      assert KeysReserved(models[1..], hyperparams) by {
        forall m | m in models[1..] ensures m in models {}
      }
      ConfsWellFormed(models[1..], hyperparams, dataSets);
      ModelConfsWellFormed(models[0], hyperparams, dataSets);
      var r := ModelConfs(models[0], hyperparams, dataSets);
      forall conf: RunConf | conf in r
        ensures WellFormedConf(conf)
      {
        var i :| 0 <= i < |r| && r[i] == conf;
      }
    }
  }

  /** The two loops over one classifier's hyperparameter pairs and the data sets, appending to the list. */
  method AppendClassifierConfs(runConfs: seq<RunConf>, model: SS.ModelChoice, pairs: seq<(string, string)>, dataSets: seq<string>)
    returns (out: seq<RunConf>)
    ensures out == runConfs + ClassifierConfs(model, pairs, dataSets)
  {
    out := runConfs;
    var p := 0;
    while p < |pairs|
      invariant 0 <= p <= |pairs|
      invariant out + ClassifierConfs(model, pairs[p..], dataSets) == runConfs + ClassifierConfs(model, pairs, dataSets)
    {
      var d := 0;
      ghost var before := out;
      while d < |dataSets|
        invariant 0 <= d <= |dataSets|
        invariant out == before + seq(d, k requires 0 <= k < d => ClassifierConf(model, SS.ClassifierConfig(pairs[p].0, pairs[p].1, dataSets[k])))
      {
        out := out + [ClassifierConf(model, SS.ClassifierConfig(pairs[p].0, pairs[p].1, dataSets[d]))];
        d := d + 1;
      }
      assert pairs[p..][1..] == pairs[p + 1..];
      p := p + 1;
    }
  }

  /** The dictionary of a named function: the model, and no data set. */
  function FunctionConf(model: SS.ModelChoice): RunConf
  {
    map["model" := ModelValue(model), "data_set_name" := DataSetName(None)]
  }

  lemma AppendStep<T>(before: seq<T>, block: seq<T>, rest: seq<T>, tail: seq<T>, all: seq<T>)
    requires before + tail == all && tail == block + rest
    ensures (before + block) + rest == all
  {
  }

  /** The nested loop over the models, their hyperparameter pairs and the data sets. */
  method EnumerateRunConfs(models: seq<SS.ModelChoice>, hyperparams: string -> seq<string>, dataSets: seq<string>)
    returns (runConfs: seq<RunConf>)
    ensures runConfs == AllConfs(models, hyperparams, dataSets)
  {
    runConfs := [];
    var m := 0;
    while m < |models|
      invariant 0 <= m <= |models|
      invariant runConfs + AllConfs(models[m..], hyperparams, dataSets) == AllConfs(models, hyperparams, dataSets)
    {
      var model := models[m];
      assert models[m..][1..] == models[m + 1..];
      assert AllConfs(models[m..], hyperparams, dataSets)
             == ModelConfs(model, hyperparams, dataSets) + AllConfs(models[m + 1..], hyperparams, dataSets);
      ghost var before := runConfs;
      if model.Function? {
        runConfs := runConfs + [FunctionConf(model)];
      } else {
        runConfs := AppendClassifierConfs(runConfs, model, SS.Pairs(hyperparams(model.name)), dataSets);
      }
      assert runConfs == before + ModelConfs(model, hyperparams, dataSets);
      AppendStep(before, ModelConfs(model, hyperparams, dataSets), AllConfs(models[m + 1..], hyperparams, dataSets),
                 AllConfs(models[m..], hyperparams, dataSets), AllConfs(models, hyperparams, dataSets));
      m := m + 1;
    }
  }

  /** run_conf.pop("model"): the model's value (None when absent: a KeyError) and the dictionary without it. */
  function PopModel(conf: RunConf): (r: (Option<ConfValue>, RunConf))
    ensures r.0.Some? <==> "model" in conf
    ensures "model" in conf ==> r.0 == Some(conf["model"])
    ensures r.1.Keys == conf.Keys - {"model"}
  {
    (if "model" in conf then Some(conf["model"]) else None, conf - {"model"})
  }

  /** Popping the model leaves every other key with its value. */
  lemma PopKeepsRest(conf: RunConf, key: string)
    requires key in conf && key != "model"
    ensures key in PopModel(conf).1 && PopModel(conf).1[key] == conf[key]
  {
  }

  /** A classifier configuration pops back its model and keeps the flags and the data set. */
  lemma PopClassifierConf(model: SS.ModelChoice, c: SS.ClassifierConfig)
    requires c.first != "model" && c.second != "model" && c.first != "data_set_name" && c.second != "data_set_name"
    ensures PopModel(ClassifierConf(model, c)).0 == Some(ModelValue(model))
    ensures PopModel(ClassifierConf(model, c)).1
            == map[c.first := Flag(true), c.second := Flag(true), "data_set_name" := DataSetName(Some(c.dataSet))]
  {
  }

  /** "_" and the data set name when it is set and non-empty (Python truthiness), otherwise "". */
  function DataSetPostfix(name: Option<string>): (r: string)
    ensures r == "" <==> name.None? || name.value == ""
    ensures r != "" ==> r == "_" + name.value
  {
    if name.Some? && name.value != "" then "_" + name.value else ""
  }

  /** The run name: the function name with spaces made underscores, the parameter names, then the postfix. */
  function RunName(functionName: string, parameterNames: seq<string>, postfix: string): string
  {
    ReplaceChar(functionName, ' ', '_') + "_" + Join(parameterNames, "_") + postfix
  }

  /** The run name of the sweep is this run name behind its run type: the plot reads the sweep's directories. */
  lemma SweepRunNameExtends(runType: string, functionName: string, parameterNames: seq<string>, postfix: string)
    ensures SS.RunName(runType, functionName, parameterNames, postfix)
            == runType + "_" + RunName(functionName, parameterNames, postfix)
  {
  }

  /** The sample size whose SMAC samples are evaluated: n_samples, or 200 once the initial design is saturated. */
  function NEval(nSamples: nat, nParams: nat): (r: nat)
    ensures r == nSamples || r == MaxSamples
  {
    if SS.OwnSampleFile(nSamples, nParams) then nSamples else MaxSamples
  }

  /** NEval keeps n exactly when n < 32 * n_params (or n is 200 anyway). */
  lemma NEvalRule(nSamples: nat, nParams: nat)
    ensures nSamples < 32 * nParams ==> NEval(nSamples, nParams) == nSamples
    ensures nSamples >= 32 * nParams ==> NEval(nSamples, nParams) == MaxSamples
  {
    SS.SampleFileRule(nSamples, nParams);
  }

  /** With 100 samples, four or more parameters evaluate 100 samples and fewer evaluate 200. */
  lemma DefaultNEval(nParams: nat)
    ensures NEval(NSamples, nParams) == if nParams >= 4 then 100 else 200
  {
    NEvalRule(NSamples, nParams);
  }

  /** The SMAC sample file read: samples_{n_eval}.csv. */
  function SmacSampleFile(nSamples: nat, nParams: nat): string
  {
    "samples_" + NatToString(NEval(nSamples, nParams)) + ".csv"
  }

  /** The random-sampling file read: always the largest size. */
  function RandSampleFile(): string
  {
    "samples_" + NatToString(MaxSamples) + ".csv"
  }

  /**
   * Where both fall back to the largest sample size, this script formats it
   * as an int while the sweep formats it from a float: the two file names differ.
   */
  lemma MaxSampleFileNamesDiffer(nSamples: nat, nParams: nat)
    requires nSamples >= 32 * nParams
    ensures SmacSampleFile(nSamples, nParams) == RandSampleFile()
    ensures SmacSampleFile(nSamples, nParams) != SS.SampleFileName(nSamples, nParams)
  {
    NEvalRule(nSamples, nParams);
    SS.SampleFileRule(nSamples, nParams);
    var a, b := SmacSampleFile(nSamples, nParams), SS.SampleFileName(nSamples, nParams);
    assert |a| < |b|;
  }

  /**
   * The training array of one sampling seed: the first n_samples rows of that
   * seed (fewer when the seed has fewer rows), restricted to the first two
   * parameter columns.
   */
  function TrainingArray(rows: seq<SS.SampleRow>, seed: int, nSamples: nat): (r: seq<(real, real)>)
    requires forall k :: 0 <= k < |rows| ==> |rows[k].config| >= 2
    ensures var own := SS.SeedRows(rows, seed);
      && |r| == (if |own| < nSamples then |own| else nSamples)
      && forall k :: 0 <= k < |r| ==> r[k] == (own[k].config[0], own[k].config[1])
  {
    var train := SS.TrainingRows(rows, seed, nSamples);
    assert forall k :: 0 <= k < |train| ==> train[k] in rows;
    seq(|train|, k requires 0 <= k < |train| => (train[k].config[0], train[k].config[1]))
  }

  /** The two accumulator keys, chosen by whether the surrogate is evaluated. */
  function AccumulatorKeys(evaluateOnSurrogate: bool): (r: set<string>)
    ensures |r| == 2
  {
    if evaluateOnSurrogate then {"SR (BO-GP)", "GP (BO)"} else {"SR (BO)", "SR (Random)"}
  }

  /** The value the source's accumulator holds after the errors cs, one per seed, starting from 0. */
  function AccumulatedAsWritten(cs: seq<real>): real
  {
    if cs == [] then 0.0
    else (AccumulatedAsWritten(cs[..|cs| - 1]) + cs[|cs| - 1]) / (|cs| as real)
  }

  lemma AccumulatedStep(h: seq<real>, c: real)
    ensures AccumulatedAsWritten(h + [c]) == (AccumulatedAsWritten(h) + c) / ((|h| + 1) as real)
  {
    var hc := h + [c];
    assert hc[..|hc| - 1] == h && hc[|hc| - 1] == c;
    assert AccumulatedAsWritten(hc) == (AccumulatedAsWritten(h) + c) / (|hc| as real);
  }

  /** Adding the errors to every key, then dividing every key by n, divides each sum by n. */
  lemma AddThenDivide(e0: map<string, real>, errors: map<string, real>, n: nat)
    requires n > 0 && e0.Keys <= errors.Keys
    ensures var summed := map k | k in e0 :: e0[k] + errors[k];
      (map k | k in summed :: summed[k] / (n as real)) == map k | k in e0 :: (e0[k] + errors[k]) / (n as real)
  {
  }

  /** One seed keeps every key's value equal to the as-written recurrence over its history. */
  lemma AccumulatedMapStep(e0: map<string, real>, h0: map<string, seq<real>>, errors: map<string, real>, n: nat)
    requires n > 0 && e0.Keys == h0.Keys && h0.Keys <= errors.Keys
    requires forall k :: k in h0 ==> |h0[k]| == n - 1 && e0[k] == AccumulatedAsWritten(h0[k])
    ensures var e1 := map k | k in e0 :: (e0[k] + errors[k]) / (n as real);
      var h1 := map k | k in h0 :: h0[k] + [errors[k]];
      forall k :: k in h1 ==> |h1[k]| == n && e1[k] == AccumulatedAsWritten(h1[k])
  {
    forall k | k in h0
      ensures AccumulatedAsWritten(h0[k] + [errors[k]]) == (e0[k] + errors[k]) / (n as real)
    {
      AccumulatedStep(h0[k], errors[k]);
    }
  }

  /** For one or two seeds the source's accumulator does hold the mean. */
  lemma AccumulatedAsWrittenUpToTwo(cs: seq<real>)
    requires 1 <= |cs| <= 2
    ensures AccumulatedAsWritten(cs) == Mean(cs)
  {
    var e: seq<real> := [];
    var one := cs[..1];
    AccumulatedStep(e, cs[0]);
    SumAppend(e, cs[0]);
    assert e + [cs[0]] == one;
    assert AccumulatedAsWritten(one) == (0.0 + cs[0]) / 1.0 && Sum(one) == 0.0 + cs[0];
    if |cs| == 2 {
      AccumulatedStep(one, cs[1]);
      SumAppend(one, cs[1]);
      assert one + [cs[1]] == cs;
      assert AccumulatedAsWritten(cs) == (cs[0] + cs[1]) / 2.0;
      assert Sum(cs) == cs[0] + cs[1];
    } else {
      assert one == cs;
    }
  }

  /** From the third seed on it does not: three seeds with error 1 leave 2/3 instead of 1. */
  lemma AccumulatorNotMean()
    ensures AccumulatedAsWritten([1.0, 1.0, 1.0]) == 2.0 / 3.0
    ensures Mean([1.0, 1.0, 1.0]) == 1.0
  {
    var e: seq<real> := [];
    AccumulatedStep(e, 1.0);
    assert e + [1.0] == [1.0];
    AccumulatedStep([1.0], 1.0);
    assert [1.0] + [1.0] == [1.0, 1.0];
    AccumulatedStep([1.0, 1.0], 1.0);
    assert [1.0, 1.0] + [1.0] == [1.0, 1.0, 1.0];
    MeanConstant([1.0, 1.0, 1.0], 1.0);
  }

  /**
   * The error dictionary and seed counter as written: each seed adds its
   * error to each key, then every key is divided by the current seed count.
   */
  class ErrorAccumulator {
    var errorTest: map<string, real>
    var nSeedsTotal: nat
    /** The error added for each key, seed by seed. */
    ghost var history: map<string, seq<real>>

    ghost predicate Valid()
      reads this
    {
      && errorTest.Keys == history.Keys
      && forall k :: k in history ==> |history[k]| == nSeedsTotal && errorTest[k] == AccumulatedAsWritten(history[k])
    }

    /** Both keys start at 0 and no seed has been counted. */
    constructor (evaluateOnSurrogate: bool)
      ensures Valid()
      ensures errorTest == map k | k in AccumulatorKeys(evaluateOnSurrogate) :: 0.0
      ensures nSeedsTotal == 0
    {
      errorTest := map k | k in AccumulatorKeys(evaluateOnSurrogate) :: 0.0;
      nSeedsTotal := 0;
      history := map k | k in AccumulatorKeys(evaluateOnSurrogate) :: [];
    }

    /** The loop dividing every key by the current seed count. */
    method DivideByCount()
      requires nSeedsTotal > 0
      modifies this
      ensures nSeedsTotal == old(nSeedsTotal) && history == old(history)
      ensures errorTest == map k | k in old(errorTest) :: old(errorTest)[k] / (nSeedsTotal as real)
    {
      ghost var summed := errorTest;
      var remaining := errorTest.Keys;
      while remaining != {}
        invariant nSeedsTotal == old(nSeedsTotal) && history == old(history)
        invariant remaining <= summed.Keys
        invariant errorTest.Keys == summed.Keys
        invariant forall k :: k in summed && k !in remaining ==> errorTest[k] == summed[k] / (nSeedsTotal as real)
        invariant forall k :: k in remaining ==> errorTest[k] == summed[k]
        decreases remaining
      {
        var key :| key in remaining;
        errorTest := errorTest[key := errorTest[key] / (nSeedsTotal as real)];
        remaining := remaining - {key};
      }
    }

    /** One (sampling seed, regression seed) pair: count it, add its errors, divide by the count. */
    method AddSeed(errors: map<string, real>)
      requires Valid()
      requires errors.Keys == errorTest.Keys
      modifies this
      ensures Valid()
      ensures nSeedsTotal == old(nSeedsTotal) + 1
      ensures errorTest == map k | k in old(errorTest) :: (old(errorTest)[k] + errors[k]) / (nSeedsTotal as real)
      ensures history == map k | k in old(history) :: old(history)[k] + [errors[k]]
    {
      ghost var e0, h0 := errorTest, history;
      nSeedsTotal := nSeedsTotal + 1;
      errorTest := map k | k in errorTest :: errorTest[k] + errors[k];
      history := map k | k in history :: history[k] + [errors[k]];
      DivideByCount();
      AddThenDivide(e0, errors, nSeedsTotal);
      AccumulatedMapStep(e0, h0, errors, nSeedsTotal);
    }
  }

  /**
   * The corrected accumulator: it keeps the running sum per key and the
   * seed count, and the error shown is their quotient.
   */
  class MeanAccumulator {
    var sums: map<string, real>
    var count: nat
    /** The error added for each key, seed by seed. */
    ghost var history: map<string, seq<real>>

    ghost predicate Valid()
      reads this
    {
      && sums.Keys == history.Keys
      && forall k :: k in history ==> |history[k]| == count && sums[k] == Sum(history[k])
    }

    constructor (evaluateOnSurrogate: bool)
      ensures Valid()
      ensures sums == map k | k in AccumulatorKeys(evaluateOnSurrogate) :: 0.0
      ensures count == 0
    {
      sums := map k | k in AccumulatorKeys(evaluateOnSurrogate) :: 0.0;
      count := 0;
      history := map k | k in AccumulatorKeys(evaluateOnSurrogate) :: [];
    }

    method AddSeed(errors: map<string, real>)
      requires Valid()
      requires errors.Keys == sums.Keys
      modifies this
      ensures Valid()
      ensures count == old(count) + 1
      ensures sums == map k | k in old(sums) :: old(sums)[k] + errors[k]
      ensures history == map k | k in old(history) :: old(history)[k] + [errors[k]]
    {
      count := count + 1;
      sums := map k | k in sums :: sums[k] + errors[k];
      history := map k | k in history :: history[k] + [errors[k]];
      forall k | k in history
        ensures sums[k] == Sum(history[k])
      {
        SumAppend(old(history)[k], errors[k]);
      }
    }

    /** The error shown for a key: the mean of the errors of every seed seen so far. */
    function MeanError(key: string): (m: real)
      reads this
      requires Valid() && key in sums && count > 0
      ensures m == Mean(history[key])
    {
      sums[key] / (count as real)
    }
  }

  /** The errors of one sampling seed, one per regression seed, in order. */
  function SeedRow(samplingSeed: int, symbSeeds: seq<int>, key: string, err: (int, int, string) -> real): (r: seq<real>)
    ensures |r| == |symbSeeds|
  {
    seq(|symbSeeds|, j requires 0 <= j < |symbSeeds| => err(samplingSeed, symbSeeds[j], key))
  }

  lemma SeedRowStep(samplingSeed: int, symbSeeds: seq<int>, j: nat, key: string, err: (int, int, string) -> real)
    requires j < |symbSeeds|
    ensures SeedRow(samplingSeed, symbSeeds[..j + 1], key, err)
            == SeedRow(samplingSeed, symbSeeds[..j], key, err) + [err(samplingSeed, symbSeeds[j], key)]
  {
    var a := SeedRow(samplingSeed, symbSeeds[..j + 1], key, err);
    var b := SeedRow(samplingSeed, symbSeeds[..j], key, err) + [err(samplingSeed, symbSeeds[j], key)];
    assert |a| == |b|;
    forall i | 0 <= i < |a| ensures a[i] == b[i] {
    }
  }

  /** Appending one regression seed's errors to every history extends each key's row by that seed. */
  lemma HistoryStep(h0: map<string, seq<real>>, before: map<string, seq<real>>, after: map<string, seq<real>>,
                    errors: map<string, real>, samplingSeed: int, symbSeeds: seq<int>, j: nat, err: (int, int, string) -> real)
    requires j < |symbSeeds|
    requires before.Keys == h0.Keys && before.Keys <= errors.Keys
    requires forall k :: k in h0 ==> before[k] == h0[k] + SeedRow(samplingSeed, symbSeeds[..j], k, err)
    requires forall k :: k in errors ==> errors[k] == err(samplingSeed, symbSeeds[j], k)
    requires after == map k | k in before :: before[k] + [errors[k]]
    ensures after.Keys == h0.Keys
    ensures forall k :: k in h0 ==> after[k] == h0[k] + SeedRow(samplingSeed, symbSeeds[..j + 1], k, err)
  {
    forall k | k in h0 ensures after[k] == h0[k] + SeedRow(samplingSeed, symbSeeds[..j + 1], k, err) {
      SeedRowStep(samplingSeed, symbSeeds, j, k, err);
    }
  }

  /** The errors in the order the two seed loops add them: sampling seed outer, regression seed inner. */
  function SeedOrder(samplingSeeds: seq<int>, symbSeeds: seq<int>, key: string, err: (int, int, string) -> real): (r: seq<real>)
    ensures |r| == |samplingSeeds| * |symbSeeds|
  {
    if samplingSeeds == [] then []
    else SeedOrder(samplingSeeds[..|samplingSeeds| - 1], symbSeeds, key, err) + SeedRow(samplingSeeds[|samplingSeeds| - 1], symbSeeds, key, err)
  }

  /** The loop over the regression seeds of one sampling seed. */
  method AccumulateSymbSeeds(acc: ErrorAccumulator, samplingSeed: int, symbSeeds: seq<int>, err: (int, int, string) -> real)
    requires acc.Valid()
    modifies acc
    ensures acc.Valid()
    ensures acc.nSeedsTotal == old(acc.nSeedsTotal) + |symbSeeds|
    ensures acc.history.Keys == old(acc.history).Keys
    ensures forall k :: k in old(acc.history) ==> acc.history[k] == old(acc.history)[k] + SeedRow(samplingSeed, symbSeeds, k, err)
  {
    var j := 0;
    while j < |symbSeeds|
      invariant 0 <= j <= |symbSeeds|
      invariant acc.Valid()
      invariant acc.nSeedsTotal == old(acc.nSeedsTotal) + j
      invariant acc.history.Keys == old(acc.history).Keys
      invariant forall k :: k in old(acc.history) ==> acc.history[k] == old(acc.history)[k] + SeedRow(samplingSeed, symbSeeds[..j], k, err)
    {
      var errors := map k | k in acc.errorTest :: err(samplingSeed, symbSeeds[j], k);
      ghost var before := acc.history;
      acc.AddSeed(errors);
      HistoryStep(old(acc.history), before, acc.history, errors, samplingSeed, symbSeeds, j, err);
      j := j + 1;
    }
    assert symbSeeds[..j] == symbSeeds;
  }

  /**
   * The two seed loops of one run configuration: every regression seed of
   * every sampling seed adds its errors to the accumulator, in that order.
   */
  method AccumulateSeeds(acc: ErrorAccumulator, samplingSeeds: seq<int>, symbSeeds: seq<int>, err: (int, int, string) -> real)
    requires acc.Valid()
    modifies acc
    ensures acc.Valid()
    ensures acc.nSeedsTotal == old(acc.nSeedsTotal) + |samplingSeeds| * |symbSeeds|
    ensures acc.history.Keys == old(acc.history).Keys
    ensures forall k :: k in old(acc.history) ==> acc.history[k] == old(acc.history)[k] + SeedOrder(samplingSeeds, symbSeeds, k, err)
  {
    var i := 0;
    while i < |samplingSeeds|
      invariant 0 <= i <= |samplingSeeds|
      invariant acc.Valid()
      invariant acc.nSeedsTotal == old(acc.nSeedsTotal) + i * |symbSeeds|
      invariant acc.history.Keys == old(acc.history).Keys
      invariant forall k :: k in old(acc.history) ==> acc.history[k] == old(acc.history)[k] + SeedOrder(samplingSeeds[..i], symbSeeds, k, err)
    {
      AccumulateSymbSeeds(acc, samplingSeeds[i], symbSeeds, err);
      SS.MulSucc(i, |symbSeeds|);
      assert samplingSeeds[..i + 1][..i] == samplingSeeds[..i];
      i := i + 1;
    }
    assert samplingSeeds[..i] == samplingSeeds;
  }
}
