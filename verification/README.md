# symbolic-explanations: a Dafny model of the deterministic core

symbolic-explanations fits symbolic regression models to the hyperparameter
optimisation samples of classifiers (and of 2-d test functions), converts the
fitted programs into simplified algebraic expressions, and plots how error
and expression complexity behave. The algebra (sympy), the regression
(gplearn), the optimiser (SMAC) and the classifiers are foreign. This project
models the deterministic code around them and proves what that code promises:

- `symb_reg_utils.dfy` (module `SymbRegUtils`): the clipped exponential and the
  regressor's ordered operator set.
- `expressions.dfy` (module `Expressions`): an expression tree, the operator
  names the converter reads, substitution, the leaf-wise map over Float
  literals and the pre-order walk.
- `convert_symb.dfy` (module `ConvertSymb`): `convert_symb`. It covers the
  dispatch on the model kind, the 500-character guard, bracket stripping,
  parsing and simplification through an `Engine` of foreign functions, the
  `X0`→`x` rename, the back-substitution of pursuit projections and the
  rounding. `ConvertSpec` states the result on whole trees.
  `ConvertSymbolic` performs the two substitution loops one node at a time,
  as the source does, and is proved against `ConvertSpec`.
- `sort_xy.dfy` (module `SortXY`): `sort`, pairs ordered by x.
- `hpo_grid.dfy` (module `HpoGrid`): the planning part of `get_hpo_test_data`.
  It covers the step count, the cell-centre axes, integer axes as sorted
  distinct truncations, the error cases and the meshgrid.
- `elbow.dfy` (module `Elbow`): `plot_complexity_vs_rmse.py`. It covers the
  filtering and averaging into one point per parsimony coefficient, the
  extremes, the slope and the nested elbow scan.
- `symbolic_sweep.dfy` (module `SymbolicSweep`): `run_symbolic_explanation.py`.
  It covers the hyperparameter table, the run configurations
  (2-combinations × data sets) and the job's setup, the run name, the sample
  sizes and the sample-file rule, sampling seeds and training prefixes with the
  shortfall `break`, the regression-seed schedule, and the three tables
  appended per unit, including an exception that ends the sweep.
- `error_plot.dfy` (module `ErrorPlot`): `run_2d_error_plot.py`. It covers run
  configurations as dictionaries, `pop("model")`, the postfix and run name,
  `n_eval` and the sample files, training arrays, and the error accumulator
  with its seed counter (a class whose map field is updated in place), in the
  form written and in a corrected form.
- `stats.dfy` (module `Stats`): the sum and the mean that both plotting
  scripts take over their rows.
- `text.dfy` and `wrappers.dfy`: number rendering, `replace`, `join`, `split`;
  `Option` and `Result`.

Foreign calls are passed in as function values:

- `sympify` and `simplify`, and `round` (the `Engine` record);
- `np.exp`, `np.log` and `np.sqrt`;
- the fit, the scores and `count_ops` (the `Fitter` record);
- reading a sample file (a function from file name to rows);
- the per-seed absolute errors of the error plot.

Reals stand for floating-point numbers.

## Model

| member | source | states |
|---|---|---|
| SymbRegUtils.ClippedExp | utils/symb_reg_utils.py:6-9 | same length as the input; each element is e^x when that is at most 100000 and exactly 100000 otherwise, so no element exceeds 100000 |
| SymbRegUtils.ClippedExpElementwise | utils/symb_reg_utils.py:8-9 | clipping acts element by element: the output of a concatenation is the concatenation of the outputs |
| SymbRegUtils.ClippedExpSaturates | utils/symb_reg_utils.py:7-9 | a huge input (any x ≥ 100000, for an exponential with e^x ≥ 1 + x) gives exactly the bound instead of an overflow |
| SymbRegUtils.ClippedExpMonotone | utils/symb_reg_utils.py:9 | a monotone exponential stays monotone after clipping: sorted inputs give sorted outputs |
| SymbRegUtils.FunctionSet | utils/symb_reg_utils.py:12-28 | ten operators with distinct names in the fixed order; the first nine are built-in, the last is the made `exp` of arity 1; exactly the first four are binary |
| Expressions.BinOpOfName | utils/utils.py:72-79 | the converter's binary names sub, div, mul, add, pow read as the operator of that name, and only those names do |
| Expressions.Convert | utils/utils.py:72-79 | a converted tree never applies a function under a converter name; a binary converter name with other than two arguments, or neg with other than one, fails |
| Expressions.ConvertPrefixForm | utils/utils.py:72-79 | round trip: converting the prefix rendering of any tree gives the tree back |
| Expressions.Subst | utils/utils.py:92 | substituting v for x removes x when v does not mention it; leaves a tree without x unchanged; every symbol other than x survives, and v's symbols appear exactly when x occurred; no other symbol appears; the floats come from the tree or v |
| Expressions.MapFloats | utils/utils.py:99-103 | keeps the symbols; the floats of the result are exactly the images of the original floats |
| Expressions.MapFloatsFixed | utils/utils.py:99-103 | with an idempotent rounding, every float left after rounding is already rounded |
| Expressions.MapFloatsIdempotent | utils/utils.py:99-103 | with an idempotent rounding, rounding a rounded tree changes nothing |
| Expressions.SubstFloatStep | utils/utils.py:101-103 | one `subs(a, round(a))` applied to a tree whose floats in `done` are rounded gives the tree with the floats of `done ∪ {a}` rounded |
| Expressions.MapFloatsInNone | utils/utils.py:101-103 | before the walk meets any Float, the tree is the original |
| Expressions.MapFloatsInAll | utils/utils.py:101-103 | once every Float of the tree has been met, the tree equals the leaf-wise rounding |
| Expressions.PreorderFloats | utils/utils.py:101-102 | the walk meets Float(v) exactly when v is a float of the tree |
| Expressions.PreorderSymbols | utils/utils.py:96-97 | the walk meets the symbol named n exactly when n is a symbol of the tree |
| ConvertSymb.ModelText | utils/utils.py:63-68 | a regressor is converted from its program's text, the meta and pursuit wrappers from their expression's text |
| ConvertSymb.StripBrackets | utils/utils.py:88 | the result holds no '[' or ']' and is no longer than the input |
| ConvertSymb.StripBracketsChar | utils/utils.py:88 | a single '[' or ']' is deleted and any other single character is kept as it is |
| ConvertSymb.StripBracketsAppend | utils/utils.py:88 | stripping is character-wise: stripping a concatenation concatenates the stripped parts, so every other character keeps its order |
| ConvertSymb.StripBracketsUnchanged | utils/utils.py:88 | text is left unchanged if and only if it has no brackets |
| ConvertSymb.StripBracketsIdempotent | utils/utils.py:88 | stripping twice is stripping once |
| ConvertSymb.ProjectionNameInjective | utils/utils.py:97 | the names P1, P2, … of different projections differ |
| ConvertSymb.ConvertSpec | utils/utils.py:63-105 | an unknown model kind raises, and only it; text longer than 500 characters is returned raw and unchanged, and only such text is (length 500 is still converted); otherwise the conversion succeeds exactly when parsing and conversion succeed |
| ConvertSymb.ConvertSymbolic | utils/utils.py:47-105 | the stepwise conversion fails exactly when the whole-tree conversion does; raw text and errors agree always; the whole result agrees when the rounding is idempotent and no projection body mentions its own symbol |
| ConvertSymb.SubstOnePass | utils/utils.py:95-98 | the walk that substitutes at every symbol P_i it meets equals one substitution of the projection, when the projection does not mention P_i |
| ConvertSymb.RoundOnePass | utils/utils.py:101-103 | the walk that substitutes `round(a)` for every Float a it meets equals the leaf-wise rounding, when rounding is idempotent |
| ConvertSymb.UnknownModelRaises | utils/utils.py:69-70 | a model of any other kind raises "Unknown symbolic model", whatever the other arguments |
| ConvertSymb.OneDimRenamesX0 | utils/utils.py:90-92 | for n_dim = 1 a regressor's or meta model's result does not mention X0 |
| ConvertSymb.OtherDimKeepsSymbols | utils/utils.py:90-92 | for any other n_dim, None included, nothing is renamed: the symbols are those of the simplified expression |
| ConvertSymb.ProjectionBodiesNotRenamed | utils/utils.py:90-98 | the rename precedes the back-substitution: a pursuit model `P1` with projection `X0` converts to `X0` even for n_dim = 1 |
| ConvertSymb.ProjectionsEliminated | utils/utils.py:94-98 | after substituting the first k projections none of P1..Pk is left, when no projection body mentions a projection symbol |
| ConvertSymb.PursuitResultHasNoProjections | utils/utils.py:93-98 | a converted pursuit expression mentions none of its projection symbols, under the same condition |
| ConvertSymb.NoRoundingWhenFalsy | utils/utils.py:99 | with n_decimals None or 0 the result does not depend on the rounding function |
| ConvertSymb.RoundedEverywhere | utils/utils.py:99-103 | with an idempotent rounding every Float of the result, projections' included, is already rounded |
| ConvertSymb.FunctionSetIsConverted | utils/utils.py:72-79 | each of the four binary operators of the function set is read as the binary operator of that name, and each unary one as an application of the function of that name |
| SortXY.Sort | utils/utils.py:37-44 | both outputs have x's length; x is non-decreasing; the (x, y) pairs are a permutation of the input pairs |
| SortXY.InsertSorted | utils/utils.py:41-42 | inserting a pair into a list ordered by x keeps it ordered by x |
| SortXY.InsertPermutes | utils/utils.py:41-42 | inserting adds exactly the one pair and keeps every other |
| SortXY.SortKeepsX | utils/utils.py:41-42 | the sorted x values are a permutation of the input x values |
| HpoGrid.IntSqrt | utils/utils.py:206 | int(sqrt(n)) is the k with k² ≤ n < (k+1)² |
| HpoGrid.IntSqrtUnique | utils/utils.py:206 | only one k satisfies that bound, so the step count is determined |
| HpoGrid.TestSteps | utils/utils.py:205-211 | a step count exists exactly for one or two parameters: n for one, ⌊√n⌋ for two |
| HpoGrid.HundredSamplesTenSteps | utils/utils.py:205-211 | 100 test samples give 10 steps for two parameters and 100 for one |
| HpoGrid.CellCentresAt | utils/utils.py:224-228 | the k-th value is lower + (k + ½)·(upper − lower)/steps, the centre of the k-th of steps equal cells |
| HpoGrid.LinspaceAt | utils/utils.py:224-228 | with at least two points, point k of `linspace(start, stop, num)` is start + k·(stop − start)/(num − 1) |
| HpoGrid.CellCentresInside | utils/utils.py:224-228 | for a non-empty range every value lies strictly inside it |
| HpoGrid.Trunc | utils/utils.py:231 | int() truncates toward zero, for both signs |
| HpoGrid.InsertDistinct | utils/utils.py:230-232 | inserting into a strictly increasing sequence keeps it strictly increasing and adds exactly the value |
| HpoGrid.Unique | utils/utils.py:230-232 | np.unique gives a strictly increasing sequence with exactly the input's values, no longer than the input |
| HpoGrid.GridPointAt | utils/utils.py:213-228 | on a linear scale point k is the k-th cell centre of [lower, upper]; on a log scale it is e raised to the k-th cell centre of [ln lower, ln upper] |
| HpoGrid.AxisValues | utils/utils.py:212-235 | at most steps values; a float parameter's axis is exactly the grid points, on either scale; an integer parameter's values strictly increase |
| HpoGrid.IntegerAxisValues | utils/utils.py:213-233 | on either scale, an integer axis holds v exactly when v is the truncation of some grid point, log-scale points included |
| HpoGrid.PlanAxes | utils/utils.py:204-235 | three or more parameters raise on the division by None, and only they do; with no test samples a parameter on a linear scale raises ZeroDivisionError, and only then; otherwise one axis per parameter, each the planned axis |
| HpoGrid.Meshgrid | utils/utils.py:251-256 | row n, column m of the grid is (xs[m], ys[n]) |
| HpoGrid.GridWithinBudget | utils/utils.py:205-211 | a two-parameter grid never has more points than test samples asked for |
| Elbow.ErrorsUsed | plot_complexity_vs_rmse.py:65 | exactly the error rows with n_samples = 200 are kept, never more rows than read |
| Elbow.ErrorsUsedAppend | plot_complexity_vs_rmse.py:65 | the filter keeps the file order: filtering a concatenation concatenates the filtered parts |
| Elbow.ErrorsUsedRow | plot_complexity_vs_rmse.py:65 | a single row is kept exactly when its n_samples is 200 |
| Elbow.ComplexityUsed | plot_complexity_vs_rmse.py:70-72 | exactly the complexity rows with n_samples = 200 and an operation count other than −1 are kept, never more rows than read |
| Elbow.ComplexityUsedAppend | plot_complexity_vs_rmse.py:70-72 | both filters keep the file order: filtering a concatenation concatenates the filtered parts |
| Elbow.ComplexityUsedRow | plot_complexity_vs_rmse.py:70-72 | a single row is kept exactly when its n_samples is 200 and its count is not −1 |
| Stats.MeanBounds | plot_complexity_vs_rmse.py:75-76 | a mean lies between any bounds of the values averaged |
| Elbow.OtherSizesIgnored | plot_complexity_vs_rmse.py:62-77 | a row of another sample size changes neither the RMSE nor the complexity of the point |
| Elbow.UnknownComplexityDropped | plot_complexity_vs_rmse.py:69-77 | a complexity row of −1 leaves the mean complexity unchanged, while the error row of the same unit still counts |
| Elbow.ComplexityWithinCounts | plot_complexity_vs_rmse.py:76 | the mean complexity lies between the smallest and largest kept operation count |
| Elbow.Aggregate | plot_complexity_vs_rmse.py:56-79 | one point per parsimony coefficient, in order; each has the mean operation count and the mean of sqrt(mse_test) of the kept rows |
| Elbow.LowestRmse | plot_complexity_vs_rmse.py:92-96 | the lower-right extreme is a point of minimum test RMSE |
| Elbow.HighestRmse | plot_complexity_vs_rmse.py:92-97 | the upper-left extreme is a point of maximum test RMSE |
| Elbow.FirstUnrejected | plot_complexity_vs_rmse.py:103-112 | the chosen candidate has no point strictly below its line, and every earlier candidate has one; None only when every candidate is rejected |
| Elbow.SelectElbow | plot_complexity_vs_rmse.py:101-112 | the nested scan with its two breaks selects exactly the first candidate with no point strictly below its line |
| Elbow.BestScore | plot_complexity_vs_rmse.py:101-112 | a point minimising rmse − slope·complexity |
| Elbow.ElbowAlwaysSelects | plot_complexity_vs_rmse.py:101-114 | for any slope and any non-empty set of points the scan selects a point, so the `None` branch is never taken |
| Elbow.WorkedExample | plot_complexity_vs_rmse.py:91-112 | for (2, 0.30), (5, 0.10), (10, 0.08) the extremes are the last and the first point, the slope is −0.0275 and the second point is selected |
| SymbolicSweep.Hyperparameters | run_symbolic_explanation.py:43-66 | a table exists exactly for MLP, SVM, BDT and DT; four distinct names for MLP and SVM, two for BDT and DT |
| SymbolicSweep.Pairs | run_symbolic_explanation.py:72 | k·(k−1)/2 pairs |
| SymbolicSweep.PairsMembers | run_symbolic_explanation.py:72 | the pairs are exactly (xs[i], xs[j]) with i < j |
| SymbolicSweep.PairsFromIndices | run_symbolic_explanation.py:72 | every pair is some (xs[i], xs[j]) with i < j |
| SymbolicSweep.PairsAt | run_symbolic_explanation.py:72 | in itertools order, (xs[i], xs[j]) with i < j sits at position i·(2k − i − 1)/2 + (j − i − 1) for k elements |
| SymbolicSweep.Cross | run_symbolic_explanation.py:72-76 | one configuration per pair and data set |
| SymbolicSweep.CrossAt | run_symbolic_explanation.py:72-77 | the configuration at position p·\|data sets\| + d is pair p with data set d, so the data set varies fastest |
| SymbolicSweep.CrossMembers | run_symbolic_explanation.py:72-76 | every configuration takes its pair from the pairs and its data set from the data sets |
| SymbolicSweep.EnumerateConfigs | run_symbolic_explanation.py:72-76 | the nested loop builds exactly the crossed list |
| SymbolicSweep.SetupOf | run_symbolic_explanation.py:68-78 | a named function runs alone with an empty postfix; a classifier without a table raises; a classifier job succeeds exactly for a Python index into the C(k,2)·2 configurations (negative indices included), runs the configuration at that index (counted from the end for a negative one), with postfix "_" + its data set |
| SymbolicSweep.JobConfiguration | run_symbolic_explanation.py:72-78 | the job at PairPosition(i, j)·2 + d runs hyperparameters i and j on data set d with postfix "_" + that data set, and the negative index of the same job does the same |
| SymbolicSweep.JobCounts | run_symbolic_explanation.py:72-77 | MLP and SVM have 12 jobs, BDT and DT 2 |
| SymbolicSweep.FirstJobs | run_symbolic_explanation.py:72-78 | jobs 0 and 1 run the first two hyperparameters on digits and on iris |
| SymbolicSweep.RunNameModelField | run_symbolic_explanation.py:101-109 | splitting the run name at "_" gives the function name as the second field, when neither the run type nor the function name holds "_" or " " |
| SymbolicSweep.SampleSizes | run_symbolic_explanation.py:18 | ten sizes, from 20 to 200, strictly increasing |
| SymbolicSweep.SampleFileRule | run_symbolic_explanation.py:155-159 | the size's own file is read exactly when n < 32·n_params; otherwise "samples_200.0.csv" |
| SymbolicSweep.TwoParameterFiles | run_symbolic_explanation.py:155-159 | with two parameters, sizes 20 to 60 read their own file and sizes 80 to 200 the largest |
| SymbolicSweep.Seeds | run_symbolic_explanation.py:161 | a seed is listed exactly when some row carries it, and each only once |
| SymbolicSweep.FirstIndex | run_symbolic_explanation.py:161 | the position of a seed's first row: that row carries the seed and no earlier row does |
| SymbolicSweep.SeedsFirstAppearance | run_symbolic_explanation.py:161 | `unique()` order: the seeds are listed in the order of their first rows |
| SymbolicSweep.SeedRows | run_symbolic_explanation.py:164-165 | exactly the rows of the seed, never more rows than the file |
| SymbolicSweep.SeedRowsAppend | run_symbolic_explanation.py:164-165 | the query keeps the file order: querying a concatenation concatenates the answers |
| SymbolicSweep.SeedRowsRow | run_symbolic_explanation.py:164-165 | a single row is kept exactly when it carries the seed |
| SymbolicSweep.TrainingRows | run_symbolic_explanation.py:164-168 | a prefix of the seed's rows, of length n or all when the seed has fewer |
| SymbolicSweep.FirstShortfall | run_symbolic_explanation.py:163-174 | every seed before it has n training rows, and the seed at it has fewer |
| SymbolicSweep.SymbSeeds | run_symbolic_explanation.py:179-180 | the regression seeds are 0, 3, 6 |
| SymbolicSweep.ModelFileNamesDistinct | run_symbolic_explanation.py:189-191 | distinct units pickle to distinct file names |
| SymbolicSweep.ConversionFailureRecordedEmpty | run_symbolic_explanation.py:207-212 | the expression "" is recorded exactly for a program of at most 500 characters whose conversion raises |
| SymbolicSweep.ConversionFailureAborts | run_symbolic_explanation.py:207-220 | when counting the operations of "" raises, a unit whose conversion fails produces no records, so the exception ends the sweep |
| SymbolicSweep.FitSeeds | run_symbolic_explanation.py:179-228 | the regression-seed loop writes exactly the specified records of seeds 0, 3, 6, stopping at an exception of the operation count |
| SymbolicSweep.FitSize | run_symbolic_explanation.py:163-228 | the sampling-seed loop, with its shortfall break, writes exactly the specified records |
| SymbolicSweep.Sweep | run_symbolic_explanation.py:152-232 | the three nested loops write exactly the records of all sample sizes, each reading its sample file |
| SymbolicSweep.ShortfallEndsSeeds | run_symbolic_explanation.py:170-174 | seeds after the first shortfall are never fitted, even those with enough rows |
| SymbolicSweep.SeedSchedule | run_symbolic_explanation.py:179-180 | without an exception each training set yields three units, with regression seeds 0, 3 and 6 in that order |
| SymbolicSweep.RecordSymbAligned | run_symbolic_explanation.py:196-228 | the records of one training set keep the three tables in step |
| SymbolicSweep.RecordSeedsAligned | run_symbolic_explanation.py:163-228 | the records of one sample size keep the three tables in step |
| SymbolicSweep.SweepAligned | run_symbolic_explanation.py:196-228 | the three tables have one row per finished unit, the k-th rows tagged with the same (n_samples, sampling_seed, symb_seed) |
| ErrorPlot.ClassifierConfsMatchSweep | run_2d_error_plot.py:31-40 | a classifier's dictionaries are those of the configurations the sweep enumerates, in the same order and number |
| ErrorPlot.ClassifierConfWellFormed | run_2d_error_plot.py:40 | a classifier dictionary maps "model" to the model, both hyperparameters to True, and "data_set_name" to the data set |
| ErrorPlot.ModelConfsWellFormed | run_2d_error_plot.py:32-40 | each dictionary of one model holds the model and a data-set entry |
| ErrorPlot.ConfsWellFormed | run_2d_error_plot.py:31-40 | every dictionary holds the model and a data-set entry, provided no hyperparameter is named like a reserved key |
| ErrorPlot.AppendClassifierConfs | run_2d_error_plot.py:37-40 | the two inner loops append exactly the classifier's dictionaries |
| ErrorPlot.EnumerateRunConfs | run_2d_error_plot.py:31-40 | the loop over the models builds exactly one dictionary per named function and one per pair and data set per classifier |
| ErrorPlot.PopModel | run_2d_error_plot.py:60 | the value stored under "model" is returned exactly when that key is present (otherwise a KeyError), and the dictionary keeps all other keys |
| ErrorPlot.PopKeepsRest | run_2d_error_plot.py:60 | every other key keeps its value |
| ErrorPlot.PopClassifierConf | run_2d_error_plot.py:60 | a classifier dictionary pops back its model and keeps both flags and the data set |
| ErrorPlot.DataSetPostfix | run_2d_error_plot.py:54-59 | the postfix is empty exactly for a missing or empty data-set name, and "_" + the name otherwise |
| ErrorPlot.SweepRunNameExtends | run_2d_error_plot.py:70 | the sweep's run name is the run type, "_", then this script's run name |
| ErrorPlot.NEvalRule | run_2d_error_plot.py:90-94 | n_samples is kept exactly when n_samples < 32·n_params |
| ErrorPlot.DefaultNEval | run_2d_error_plot.py:90-94 | with 100 samples, four or more parameters evaluate 100 and fewer evaluate 200 |
| ErrorPlot.MaxSampleFileNamesDiffer | run_2d_error_plot.py:95-96 | once saturated the SMAC file equals the random-sampling file "samples_200.csv", and differs from the sweep's "samples_200.0.csv" |
| ErrorPlot.TrainingArray | run_2d_error_plot.py:122-126 | the first n_samples rows of the seed (fewer if it has fewer), restricted to the first two parameter columns |
| ErrorPlot.AccumulatedStep | run_2d_error_plot.py:141-171 | one seed adds its error to the held value and divides by the new count |
| ErrorPlot.AccumulatedAsWrittenUpToTwo | run_2d_error_plot.py:170-171 | for one or two seeds the accumulator holds the mean error |
| ErrorPlot.AccumulatorNotMean | run_2d_error_plot.py:170-171 | three seeds with error 1 leave 2/3 in the accumulator, not the mean 1 |
| Stats.MeanConstant | run_2d_error_plot.py:170-171 | the corrected mean of a constant error is that error |
| ErrorPlot.ErrorAccumulator.constructor | run_2d_error_plot.py:111-118 | both keys start at 0 with no seed counted |
| ErrorPlot.ErrorAccumulator.DivideByCount | run_2d_error_plot.py:170-171 | every key is divided by the current seed count, nothing else changes |
| ErrorPlot.ErrorAccumulator.AddSeed | run_2d_error_plot.py:131-171 | the count grows by one and each key becomes (old value + error) / count, as written |
| ErrorPlot.MeanAccumulator.constructor | run_2d_error_plot.py:111-118 | both sums start at 0 with no seed counted |
| ErrorPlot.MeanAccumulator.AddSeed | run_2d_error_plot.py:131-168 | the count grows by one and each sum grows by the seed's error |
| ErrorPlot.MeanAccumulator.MeanError | run_2d_error_plot.py:170-171 | the error shown for a key is the mean of every seed's error |
| ErrorPlot.AccumulateSymbSeeds | run_2d_error_plot.py:128-171 | the regression-seed loop counts one seed per regression seed and adds their errors in order |
| ErrorPlot.AccumulateSeeds | run_2d_error_plot.py:120-171 | the two seed loops count \|sampling seeds\|·\|regression seeds\| seeds and add their errors sampling seed by sampling seed |

## Left out

- Foreign algebra and fitting. sympy's parser and `simplify` are not modelled, nor is the re-evaluation a `subs` triggers. `count_ops` is left out too. gplearn's fit and `length_`, the SMAC samples and the meta and pursuit wrappers are all outside the model. Each appears only as a function parameter.
- `get_scores` and `append_scores`: thin wrappers over sklearn metrics. Their result is an opaque list of scores.
- `get_surrogate_predictions` and `classifier.train` inside `get_hpo_test_data`: foreign model calls. The test targets `y_test` are not modelled; only the test inputs are.
- Plotting, logging, argparse and file I/O: `plot_symb1d`, `plot_symb2d`, the orange line of the elbow plot, the plot file names, `get_output_dirs`, `write_dict_to_cfg_file`, and the CSV and pickle reads and writes. A sample file read is a function from its name to its rows.
- `run_toy_symb.py` and `run_rand_smac_learning_curves.py` are not part of this model. Their logic repeats the exp, grid, run-configuration and run-name rules modelled here.
- Floating point. NaN and infinities are not modelled, and neither is np.errstate. Means of empty frames and exact `linspace` values are out of scope. So are the values of `log`, `exp`, `sqrt` and `round`, which are parameters.
- Elbow.Aggregate: requires every parsimony value to keep at least one error row and one complexity row; pandas would give a NaN mean instead.
- Elbow.Slope: requires the two extremes to differ in complexity; the source would divide by zero and get an infinity or NaN.
- Elbow.LowestRmse: picks one minimiser. pandas' default sort is not stable, so the source fixes no tie order. The contract promises only a point of minimum RMSE, and `HighestRmse` likewise only a point of maximum RMSE.
- SortXY.Sort: one tie order is modelled, because np.argsort's default sort is not stable. The contract promises only sortedness and a permutation of pairs. It also requires y to be at least as long as x, where the source would raise an IndexError.
- Expressions.Convert: a call of a name other than a converter name is read as a one-argument function. A call of such a name with any other number of arguments is treated as a parse failure.
- ConvertSymb.ConvertSymbolic: agrees with `ConvertSpec` under two conditions. The rounding must be idempotent, and no projection body may mention its own symbol. Without them, a `subs` may hit a value that an earlier `subs` introduced.
- SymbolicSweep.SetupOf: the choice between a named function and a classifier is a parameter. As written, run_symbolic_explanation.py:35 always takes the function `functions[int(job_id)]`, so the classifier branch is reached only when line 34's `model = "DT"` is restored.
- SymbolicSweep.ConversionFailureRecordedEmpty: `count_ops` is a parameter, so whether the recorded "" reaches disk depends on it. `ConversionFailureAborts` states the outcome for a counter that raises on "".
- SymbolicSweep.Sweep: each unit's expression is the whole-tree conversion `ConvertSpec`, not the stepwise `ConvertSymbolic`. The two agree under the conditions above.
- SymbolicSweep.Sweep: an exception of the operation count ends the sweep with the tables of the units already finished. These are the tables last written to disk. The metrics and expression rows of the failing unit are appended in memory but never written.
- ErrorPlot.ErrorAccumulator: each error grid is modelled at one grid cell as a real. Every cell is updated by the same arithmetic.
- ErrorPlot.EnumerateRunConfs: `get_hyperparams` and the hyperparameter names are a parameter. This script's own table is not part of this model.
- ErrorPlot.TrainingArray: requires every row to hold at least two parameter values; the source would raise on a missing column.

## Findings

| source | as written | input that shows it | evidently intended | confidence | as-written member | corrected member |
|---|---|---|---|---|---|---|
| run_2d_error_plot.py:170-171 | after each seed the running value (previous value plus the new error) is divided by the seed count, so earlier seeds are divided again and again | three seeds with absolute error 1 at a grid cell leave 2/3, not 1 | the mean absolute error over the seeds seen: the running sum divided by the count | not executed | ErrorPlot.AccumulatorNotMean | ErrorPlot.MeanAccumulator.MeanError |
