# Decay-chain Monte Carlo simulator: a Dafny model of its core

This project models the core of a Monte Carlo simulator of radioactive decay
chains:

- **Database and states.** A read-only database of nuclide states is keyed by `"A.Z.E"`. Each state has a half-life and a table of decay branches.
- **`Chain`.** A random walk down the decay graph builds the list of states, the decay energies and a path id. The id reads `state ==(label)==> state ==(label)==> …`.
- **`Distribution`.** The exponential decay law is discretised on an `arange` grid and normalised into a pdf and a cdf.
- **`Event`.** One decay time is drawn by inverse-cdf sampling, with `bisect_left` plus a sub-bin offset.
- **`ChainSimulation.run_simulation`.** It runs `N` trials and caches distributions by half-life. Each trial's row of event times, ending in `'SF'`, is grouped under its path id. Each group becomes a DataFrame whose columns are the state ids of the path.
- **`get_mean_lifetime`.** It looks a state up by its key.
- **Schmidt test control logic.** This covers the choice of confidence bounds (a table lookup by `bisect_left` up to 100 samples, the analytic formula beyond), the dropping of the `'SF'` column, and the NaN-stopping geometric-mean fold `g_nan_mean`.

Randomness is made explicit:
- The draws of `np.random.choice` are a finite sequence `picks`. Draw `k` selects row `picks[k] % |branches|` of the branch table.
- The two `random.random()` calls per event are consecutive entries of a finite sequence `uniforms`.
- Both sequences are consumed in order across all trials. Running out of either one is the error `Exhausted`, which the program itself never raises.

The decay law `exp(-ln 2 * t / h)` is a parameter `law(h, t)`. The pickled table of Schmidt (2000) is a parameter `table`. The square root of the sample count is a parameter `root` with `root * root == n`. Every other computation is over exact reals. The one place where numpy divides by zero without raising, in `Distribution`, gives explicit `inf`, `-inf` and NaN values.

Modules:
- `Basics`: Option, Result, the exceptions, `int()` truncation.
- `Text`: `str(int)`, `in` on strings, `str.split()`.
- `Bisect`: `bisect_left`.
- `States`: the database, `State.__init__`, the getters.
- `Chains`: the walk and `Chain.__init__`.
- `Distributions`.
- `Events`.
- `Groups`: the dict of rows per path id and `pd.DataFrame`.
- `Simulation`: the driver, the trial loop and the class `ChainSimulation`.
- `SimulationFacts`: what a run guarantees.
- `Schmidt`.

Where the documented behaviour and the code disagree, the model follows the code:
- The sampler clamps no index. An `r` beyond the last cdf entry indexes past the grid (IndexError), as `Events.EventPastLastBin` shows.
- The sampler has no guard against a zero time: `r <= cdf[0]` with `u = 0` gives exactly the first grid point, 0 in the driver, as `Events.EventAtGridStart` shows.
- A walk that ends at a stable state does not give a chain, because `Chain.__init__` raises TypeError (see Findings). This is the case for any path that ends at a stable nuclide, for example `10.5.0 --alpha--> 6.3.0`.

## Model

| member | source | states |
|---|---|---|
| Basics.Trunc | _simulations/chain_simulation.py:51-52 | `int()` of a float truncates toward zero: the result lies within 1 of the argument, on the side of 0 |
| Basics.Ceil | _simulations/distributions.py:28 | the smallest integer at or above the argument, which is the number of points of `arange` |
| Bisect.BisectLeftIn | _simulations/event.py:17 | one halving step of `bisect_left` keeps `lo <= i <= hi`; on a sorted list the entries of the range before `i` are below `x` and those from `i` are at least `x` |
| Bisect.BisectLeft | _simulations/event.py:17 | `i <= len(a)`; on a sorted list every entry before `i` is `< x` and every entry from `i` is `>= x` |
| Text.IntToString | _simulations/state.py:54 | `str(n)` is a non-empty string of digits and `-` |
| Text.ParseIntToString | _simulations/state.py:54 | reading back `str(n)` gives `n` |
| Text.IntToStringInjective | _simulations/state.py:54 | two ints with the same numeral are equal |
| Text.SplitAtSeparator | _simulations/state.py:54 | splitting at the first separator is unambiguous when neither head contains it |
| Text.Words | _simulations/chain_simulation.py:130 | `str.split()` yields non-empty words without whitespace |
| Text.WordsOfWord | _simulations/chain_simulation.py:130 | a whitespace-free word followed by whitespace or nothing splits off as the first word |
| Text.WordThenSpace | _simulations/chain_simulation.py:130 | a word followed by a space splits off as the first word |
| Text.WordsOfSpace | _simulations/chain_simulation.py:130 | leading whitespace does not change the split |
| States.Find | _simulations/state.py:55 | `DATABASE[key]` is absent exactly when no entry has that key |
| States.FindAt | _simulations/state.py:55 | in a dict the i-th key finds the i-th record |
| States.FindIn | _simulations/state.py:55 | a record that is found is filed under its key |
| States.KeyInjective | _simulations/state.py:54 | `f'{A}.{Z}.{E}'` keys are equal exactly when the triples are equal |
| States.KeyCharacters | _simulations/state.py:54 | a key is non-empty and contains neither whitespace nor `=` |
| States.FindState | _simulations/state.py:52-57 | `(None, None)` exactly when the key is absent; otherwise the key is `f'{A}.{Z}.{E}'` |
| States.NewState | _simulations/state.py:26-44 | `E` defaults to 0; KeyError exactly when the key is absent; otherwise the attributes come from the record, and `branches` is None exactly when `half_life` is None |
| States.HalfLivesAligned | _simulations/state.py:46-50 | `get_all_states` and `get_true_half_lives` have the database's length and are index-aligned with its records |
| States.RealizedHalfLifePositive | _simulations/state.py:37 | a constructed state of a database with positive half-lives has a positive half-life |
| Chains.Successor | _simulations/chain_simulation.py:51-60 | alpha leads to `(A-4, Z-2, int(exc))` and gamma to `(A, Z, int(exc))`, with alpha tested first; any other label keeps the state; KeyError exactly when the target key is absent |
| Chains.GenerateRandomChain | _simulations/chain_simulation.py:34-64 | the while loop returns the walk `WalkFrom` describes |
| Chains.WalkCons | _simulations/chain_simulation.py:40-62 | one iteration: the choice is valid; an `sf` label ends the walk with a `None` energy; any other label records `int(energy)` and continues from the successor |
| Chains.WalkStable | _simulations/chain_simulation.py:36-40 | from a stable state the walk is that bare state and uses no draw |
| Chains.WalkShape | _simulations/chain_simulation.py:36-64 | pairs up to the last element, which is either a bare stable state or a pair with an `sf` label; one energy per pair, `None` only for a final `sf` pair; one draw per pair, and no more draws than given |
| Chains.StepsAt | _simulations/chain_simulation.py:42-62 | step `i` of a following walk links element `i` to `i+1` with draw `i` and energy `i` |
| Chains.WalkSteps | _simulations/chain_simulation.py:36-62 | the walk starts at the initial state and consecutive elements are one loop iteration apart |
| Chains.WalkFinalDraw | _simulations/chain_simulation.py:46-48 | a walk ending in a pair ended on the drawn label containing `sf` |
| Chains.WalkRealized | _simulations/chain_simulation.py:57-60 | every state on the walk is one the database constructs |
| Chains.WalkHalfLivesPositive | _simulations/chain_simulation.py:40-62 | every half-life met on the walk is positive when the database's are |
| Chains.WalkIgnoresUnusedDraws | _simulations/chain_simulation.py:42 | more draws than the walk uses do not change it |
| Chains.StatesOf | _simulations/chain_simulation.py:27 | `chain` is the first component of each element |
| Chains.MakeChain | _simulations/chain_simulation.py:25-32 | as written: TypeError exactly when some element is a bare State; otherwise the same as the corrected chain |
| Chains.MakeChainCorrected | _simulations/chain_simulation.py:25-32 | one state per element of the walk, and the decay energies unchanged |
| Chains.MakeChainFailsIffBare | _simulations/chain_simulation.py:27-31 | on a well-shaped walk, `Chain.__init__` fails exactly when the last element is bare |
| Chains.ChainFailsIffStable | _simulations/chain_simulation.py:25-32 | for any walk, `Chain(initial_state)` raises TypeError exactly when the walk reached a stable state |
| Chains.StableStartRaises | _simulations/chain_simulation.py:25-32 | concrete case: from a stable Pb-206, building the chain raises TypeError for every draw sequence |
| Chains.ColumnNames | _simulations/chain_simulation.py:131 | the filter keeps only words without `=` |
| Chains.ColumnNamesPrefix | _simulations/chain_simulation.py:131 | a word is kept exactly when it has no `=` |
| Chains.RealizedIdShaped | _simulations/state.py:33 | a state id is one word that is not an arrow |
| Chains.WordsOfPair | _simulations/chain_simulation.py:31 | the text of `[state, label]` splits into the state id and one arrow word |
| Chains.ColumnsOfChainText | _simulations/chain_simulation.py:130-131 | splitting the path id and dropping the arrow words gives the state ids in order |
| Chains.WalkTextShaped | _simulations/chain_simulation.py:31 | with space-free labels every element of a walk prints as an id and an arrow word |
| Chains.ChainColumns | _simulations/chain_simulation.py:130-131 | the column names of a chain are its state ids, one per state, in order |
| Distributions.Arange | _simulations/distributions.py:28 | `ArangeLen` points, the k-th at `start + k*step` |
| Distributions.ArangeRises | _simulations/distributions.py:28 | the grid starts at `start` and rises by exactly `step` |
| Distributions.ArangeBelow | _simulations/distributions.py:28 | every grid point lies below `stop` |
| Distributions.ArangeBelowStop | _simulations/distributions.py:28 | the point at any index below the length lies below `stop` |
| Distributions.ArangeMaximal | _simulations/distributions.py:28 | the point after the last would reach `stop` |
| Distributions.ArangeShape | _simulations/distributions.py:28 | the four facts above together |
| Distributions.TrapzPositive | _simulations/distributions.py:35 | a positive curve on a rising grid of two or more points has a positive trapezoid integral |
| Distributions.Exponential | _simulations/distributions.py:30 | one value of the curve per grid point |
| Distributions.OverZero | _simulations/distributions.py:35 | `x / 0.0` is NaN exactly when `x` is 0 and `inf` exactly when `x` is positive |
| Distributions.CalculatePdf | _simulations/distributions.py:34-36 | nothing is raised; the pdf holds special values exactly when the curve is non-empty and its integral is zero, each NaN where the curve is 0 and `inf` where it is positive; otherwise each pdf value times the integral is the curve value |
| Distributions.PdfPositive | _simulations/distributions.py:34-36 | a positive curve on a rising grid of two or more points gives a pdf of positive numbers |
| Distributions.CalculateCdf | _simulations/distributions.py:38-40 | nothing is raised; one entry per pdf entry; a pdf of special values gives a cdf of NaNs; a pdf of numbers gives special values exactly when it is non-empty with a zero total, and otherwise each entry times the total is its running sum |
| Distributions.SumPositive | _simulations/distributions.py:39 | a non-empty positive sequence has a positive sum |
| Distributions.PrefixSumMonotone | _simulations/distributions.py:39 | the cumulative sums of a positive sequence are positive and rising |
| Distributions.CdfAt | _simulations/distributions.py:39 | `cdf[k]` is the sum of the first `k+1` pdf values over the total |
| Distributions.CdfIsDistribution | _simulations/distributions.py:38-40 | for a positive pdf the cdf is non-decreasing, in `(0, 1]`, and ends at 1 |
| Distributions.CdfEntriesOrdered | _simulations/distributions.py:39 | `0 < cdf[i] <= cdf[j] <= 1` for `i <= j` |
| Distributions.NewDistribution | _simulations/distributions.py:25-32 | never raises; `time_start` defaults to 0 and `A` to 1; `dt = 5h/10000`; the grid is `arange(start, range, dt)`; the curve, pdf and cdf have the grid's length |
| Distributions.DistributionWellFormed | _simulations/distributions.py:25-40 | with a positive law and at least two grid points, the pdf is made of positive numbers, the cdf is a distribution function ending at 1, and the bin width is `dt` |
| Distributions.OnePointDistribution | _simulations/distributions.py:25-40 | a window of one grid point gives the pdf `[inf]` and the cdf `[nan]`, without raising |
| Distributions.DriverGridLength | _simulations/distributions.py:27-28 | with a window of `factor*h`, the grid has `ceil(2000*factor)` points |
| Events.Comparable | _simulations/event.py:17 | the comparison `a[mid] < r` that `bisect_left` makes holds of a special value exactly when it is `-inf` |
| Events.SearchNaNs | _simulations/event.py:17 | on a cdf of NaNs `bisect_left` returns 0 |
| Events.GenerateEventTime | _simulations/event.py:14-27 | with fewer than two grid points, IndexError; otherwise `i = bisect_left(cdf, r)`, on numbers or special values, and the result is Ok exactly when `i` is inside the grid, lying in `[grid[i], grid[i] + bin)` |
| Events.FractionOfBin | _simulations/event.py:25 | `u * bin` stays inside one bin |
| Events.EventIndexInRange | _simulations/event.py:17-24 | with a last cdf entry of 1 and `r < 1` the index stays inside the grid |
| Events.EventPastLastBin | _simulations/event.py:17-24 | nothing clamps the index: an `r` above the last cdf entry raises IndexError |
| Events.EventAtGridStart | _simulations/event.py:19-25 | nothing guards against 0: with `r <= cdf[0]` and `u = 0` the time is `grid[0]` |
| Events.EventFromDistribution | _simulations/event.py:14-27 | sampling a well-formed distribution with `r, u` in `[0,1)` succeeds, inside the window plus one bin |
| Events.EventInWindow | _simulations/event.py:14-27 | on an `arange` grid with a cdf ending at 1, the time lies in `[start, range + dt)` |
| Events.EventOnOnePointGrid | _simulations/event.py:15 | a window of one grid point builds a distribution without raising, and the event raises IndexError for every draw |
| Groups.Ids | _simulations/chain_simulation.py:121-124 | the dict's keys in insertion order |
| Groups.Insert | _simulations/chain_simulation.py:121-124 | a present key keeps the key list; a new key is appended at the end |
| Groups.InsertRows | _simulations/chain_simulation.py:121-124 | the row is appended to its own id's list, and no other list changes |
| Groups.InsertTotal | _simulations/chain_simulation.py:121-124 | one insertion adds exactly one row |
| Groups.InsertIds | _simulations/chain_simulation.py:121-124 | after the insertion the keys are the old keys plus the id |
| Groups.RowsUnderAbsent | _simulations/chain_simulation.py:121-124 | an absent key has no rows |
| Groups.GroupAllRows | _simulations/chain_simulation.py:100-124 | each id's list holds exactly the rows of the trials with that id, in trial order |
| Groups.GroupAllTotal | _simulations/chain_simulation.py:100-124 | the list lengths add up to the number of trials |
| Groups.GroupAllIds | _simulations/chain_simulation.py:100-124 | the keys are exactly the ids that occurred |
| Groups.GroupAllSnoc | _simulations/chain_simulation.py:121-124 | one more trial inserts its row into the dict of the earlier ones |
| Groups.InsertFits | _simulations/chain_simulation.py:121-124 | insertion keeps every row at the width its id calls for |
| Groups.GroupAllFits | _simulations/chain_simulation.py:100-124 | rows of the right width per id give groups of the right width |
| Groups.MaxLen | _simulations/chain_simulation.py:132 | the length of the longest row |
| Groups.Pad | _simulations/chain_simulation.py:132 | a short row is padded with missing values up to the width |
| Groups.MakeFrame | _simulations/chain_simulation.py:132 | ValueError exactly when there are rows and the longest does not match the column count; otherwise every row is padded to the column count |
| Groups.FrameOfFittingRows | _simulations/chain_simulation.py:132 | rows that match the column count go into the frame unchanged |
| Simulation.BuilderOf | _simulations/chain_simulation.py:115 | the constructor `h => Distribution(h, factor*h)` |
| Simulation.SampleEventTimes | _simulations/chain_simulation.py:105-119 | the inner loop computes `SampleFrom` over the chain without its last state |
| Simulation.SampleOne | _simulations/chain_simulation.py:108-119 | one iteration: cache hit or build and store, then one event time |
| Simulation.StepCounts | _simulations/chain_simulation.py:115-117 | a step appends one time, keeps the earlier ones, and uses exactly the next two uniforms |
| Simulation.StepCache | _simulations/chain_simulation.py:111-114 | a step keeps the cache coherent, changes no entry, and counts a build exactly when it adds an entry |
| Simulation.BuildSamples | _simulations/chain_simulation.py:115-117 | with a positive law and at least two grid points, the event time sampled from line 115's distribution lies in `[0, factor*h + dt)` |
| Simulation.OnePointWindowRaises | _simulations/chain_simulation.py:115-117 | a window of one grid point builds line 115's distribution without raising, with a cdf of NaN, and the event raises IndexError |
| Simulation.SampleFromCounts | _simulations/chain_simulation.py:105-119 | a finished loop gives one time per step, keeps the earlier times, and uses exactly `2*steps` uniforms |
| Simulation.SampleFromCache | _simulations/chain_simulation.py:109-119 | the cache only grows, keeps its entries, stays coherent, and builds once per half-life |
| Simulation.TimeCells | _simulations/chain_simulation.py:117 | the event times as cells, in order |
| Simulation.StepsPositive | _simulations/chain_simulation.py:105-107 | the states a trial samples have positive half-lives |
| Simulation.TrialOf | _simulations/chain_simulation.py:100-126 | the trial of this database, initial state and constructor, with the corrected `Chain` |
| Simulation.RunStops | _simulations/chain_simulation.py:100-126 | an error ends the run, and later trials never happen |
| Simulation.Entries | _simulations/chain_simulation.py:121-124 | the (path id, row) pairs in trial order |
| Simulation.PlayTrial | _simulations/chain_simulation.py:101-126 | the loop body computes the trial |
| Simulation.FinishTrial | _simulations/chain_simulation.py:102-126 | after the walk: the corrected chain object and its sampled row |
| Simulation.RunTrials | _simulations/chain_simulation.py:97-126 | the trial loop succeeds exactly when the `n` trials do; it then returns the dict grouping their rows, and otherwise their error |
| Simulation.BuildFrames | _simulations/chain_simulation.py:127-133 | the frame loop computes one frame per group, in key order |
| Simulation.MeanLifetimeAt | _simulations/chain_simulation.py:155-161 | the value under `f'{A}.{Z}.{E}'`; KeyError when there is no table or no such key |
| Simulation.MeanLifetimeOwnEntry | _simulations/chain_simulation.py:155-161 | a lookup sees only its own state's entry: storing under another triple leaves it unchanged |
| Simulation.ChainSimulation.constructor | _simulations/chain_simulation.py:83-88 | the state lists come from the database, and no results yet |
| Simulation.ChainSimulation.RunSimulation | _simulations/chain_simulation.py:90-136 | `N` defaults to 10 000 and the factor to 5; the run is `Simulate`; the result attributes are set on success and left alone on error |
| Simulation.ChainSimulation.GetMeanLifetime | _simulations/chain_simulation.py:155-161 | the stored mean lifetime of `A.Z.E`, or KeyError |
| SimulationFacts.TrialWalk | _simulations/chain_simulation.py:101-126 | a successful trial is the walk from the initial state, followed by the sampling of its chain |
| SimulationFacts.AfterWalkIs | _simulations/chain_simulation.py:102-126 | the outcome is the corrected chain, its id, and the times the sampling loop gave |
| SimulationFacts.AfterWalkRow | _simulations/chain_simulation.py:105-126 | the stored row has one time per state but the last, then `'SF'` |
| SimulationFacts.TrialRow | _simulations/chain_simulation.py:101-126 | every successful trial is well recorded and starts at the initial state |
| SimulationFacts.TrialColumns | _simulations/chain_simulation.py:127-131 | the column names of a trial's id are its chain's ids, one per cell of its row |
| SimulationFacts.TrialDraws | _simulations/chain_simulation.py:101-126 | a trial uses one pick per pair of its path and two uniforms per sampled state, from the front of each stream |
| SimulationFacts.TrialCache | _simulations/chain_simulation.py:109-114 | a trial keeps the cache coherent, changes no entry, and builds exactly what it adds |
| SimulationFacts.RunPrefix | _simulations/chain_simulation.py:100 | a finished run has `n` outcomes, and its first `k` are the run of `k` trials |
| SimulationFacts.RunAll | _simulations/chain_simulation.py:100-126 | a property of every trial's outcome holds of every outcome of the run |
| SimulationFacts.RunKeeps | _simulations/chain_simulation.py:100-126 | an invariant every trial keeps holds after the run |
| SimulationFacts.RunCache | _simulations/chain_simulation.py:109-114 | after a run the cache is coherent, and the number of line-114 builds equals the number of distinct half-lives cached |
| SimulationFacts.RunRows | _simulations/chain_simulation.py:100-126 | every outcome of a run is well recorded |
| SimulationFacts.SimulateGroups | _simulations/chain_simulation.py:97-126 | the dict holds `n` rows in all; each id's rows are that id's trials in order; its keys are the ids that occurred |
| SimulationFacts.RunFits | _simulations/chain_simulation.py:121-131 | every grouped row has one cell per column name of its id |
| SimulationFacts.FramesOf | _simulations/chain_simulation.py:127-133 | one frame per group, with the columns derived from its id |
| SimulationFacts.FramesOfFitting | _simulations/chain_simulation.py:127-133 | groups whose rows fit their columns all become frames |
| SimulationFacts.SimulateFrames | _simulations/chain_simulation.py:127-133 | with space-free labels the frame step never fails and gives each group's rows under its id's columns |
| SimulationFacts.AfterWalkAsWrittenIs | _simulations/chain_simulation.py:101-126 | once the walk is known, the trial as written fails with TypeError exactly when `Chain.__init__` does, and is the corrected trial otherwise |
| SimulationFacts.TrialAsWrittenIs | _simulations/chain_simulation.py:101-126 | a trial as written raises TypeError exactly when its walk reaches a stable state, and is the corrected trial otherwise |
| SimulationFacts.RunDiverted | _simulations/chain_simulation.py:100-126 | a trial that raises where a condition holds and is another trial elsewhere gives that trial's run until the first trial where the condition holds, then TypeError |
| SimulationFacts.RunAsWritten | _simulations/chain_simulation.py:100-126 | the trial loop as written is the corrected loop until the first walk that reaches a stable state, which raises TypeError |
| SimulationFacts.SimulateAsWrittenIs | _simulations/chain_simulation.py:90-133 | `run_simulation` as written raises TypeError when some trial's walk reaches a stable state, and is the corrected simulation otherwise |
| Schmidt.TableLimits | _stats/schmidt_test.py:24-26 | the bounds of the first row with `n >= count`; KeyError exactly when there is no such row |
| Schmidt.AnalyticLimitsOrdered | _stats/schmidt_test.py:27-29 | beyond 100 samples, `lower < upper`, the interval is centred on 1.28, and it lies inside `(1.065, 1.495)` |
| Schmidt.Limits | _stats/schmidt_test.py:22-29 | the table up to 100 samples, the ordered analytic bounds beyond |
| Schmidt.SchmidtTest | _stats/schmidt_test.py:7-32 | bounds keyed on the number of decay times |
| Schmidt.DropLast | _stats/schmidt_test.py:65 | `iloc[:, :-1]` removes the last column and the last cell of each row |
| Schmidt.DropSF | _stats/schmidt_test.py:64-65 | IndexError without columns; AttributeError for a text-less column of numbers; otherwise the column is dropped exactly when `any` finds a true or NaN entry |
| Schmidt.DropSFOnTexts | _stats/schmidt_test.py:64-65 | for a last column of texts, it is dropped exactly when some text contains `'SF'` |
| Schmidt.SimulationFrameDropsSF | _stats/schmidt_test.py:64-65 | a non-empty frame of the simulation, whose rows end in `'SF'`, loses that column |
| Schmidt.GeneralisedSchmidtTest | _stats/schmidt_test.py:56-83 | the column drop, then the same bounds rule keyed on the number of rows |
| Schmidt.Leading | _stats/schmidt_test.py:45-52 | the number of entries before the first NaN |
| Schmidt.FoldRow | _stats/schmidt_test.py:43-52 | the inner loop gives the product of the entries before the first NaN and their count |
| Schmidt.GNanMean | _stats/schmidt_test.py:34-54 | 1-D input comes back unchanged; a 2-D input gives the per-row folds, or ZeroDivisionError |
| Schmidt.NanMeanRows | _stats/schmidt_test.py:41-54 | the fold succeeds exactly when every row starts with a number; it then holds one fold per row, the product before the first NaN and its count |
| Schmidt.NanMeanStops | _stats/schmidt_test.py:42-53 | once a row raises, the whole call raises |

## Left out

- Plotting (`Distribution.plot`) and the reporting methods. These include `print_results`, `print_mean_lifetimes`, `print_schmidt_test` and the printing part of the generalised test. Also left out are the tqdm progress bar and the console message of line 114. The message is counted as `builds` instead.
- Reading `state_db.yml` and the pickled Schmidt table: both are parameters.
- The random number generators: their draws are the finite sequences `picks` and `uniforms`. How `np.random.choice` maps a uniform draw to a weighted row is not modelled. Every row, including rows of probability 0, may be drawn, so the model's walks include all of the program's and some it can never take; the properties proved for all walks hold of the program's walks. Its validation of `p` is modelled, with a tolerance of 2^-26 on the sum.
- Float numerics: the reals are exact. `exp` is the parameter `law`, and √n is the parameter `root`. No rounding or overflow is modelled. `inf` and NaN appear only where `Distribution` divides by zero (the `Special` values) and as missing values in frames.
- The aggregation of mean lifetimes (chain_simulation.py:138-151), because it is float column arithmetic over pandas. `RunSimulation` takes its resulting table as the parameter `means`. The getter's lookup is modelled on that table.
- Schmidt.SchmidtTest and Schmidt.GeneralisedSchmidtTest: the sigma of the log-times (`nanstd`, `log`, `nanmean`, `square`, `sqrt`, `mean`) is not computed. The models return the bounds and the kept frame only. The ZeroDivisionError that `g_nan_mean` can raise inside the generalised test is modelled by `GNanMean`, not by the composition.
- Schmidt.GNanMean: `temp ** (1./steps)` is returned as the pair (product, steps), and the power is not taken. The DataFrame and ndarray branches are the same 2-D array. The loop with `break` is written as a loop guarded by the entry being a number.
- Schmidt.DropSF: the `.str` accessor's rule is modelled at the level of whether the column holds a text. pandas' full dtype inference is not modelled.
- Schmidt.TableLimits: `dat.loc[i, …]` is read as position `i`. This assumes the table has the default integer index.
- `Event.name`, `Event.parent` and `Event.daughter` (only the event time is used), and `State.unpack_branches` beyond the branch rows.
- Chains.GenerateRandomChain and Simulation.RunTrials: a database whose walks never end would loop forever. The model's walks consume one draw per step, so a finite `picks` ends every walk with a result or `Exhausted`.
- Simulation.ChainSimulation.RunSimulation: the sampling is parameterised by the constructor `BuilderOf(factor, law)` instead of rebuilding `Distribution` inline. The driver uses the corrected `Chain` (see Findings), so a walk that ends at a stable state samples all but its last state instead of raising.
- Simulation.TrialOf: the trial uses the corrected `Chain`. The trial as written is `Simulation.TrialAsWritten`, and `SimulationFacts.TrialAsWrittenIs` proves it raises TypeError exactly when the walk reaches a stable state.
- Simulation.FinishTrial: it builds the corrected `Chain`. `SimulationFacts.SimulateAsWrittenIs` proves that the program as written, `Simulation.SimulateAsWritten`, is this run until the first walk that reaches a stable state, and raises TypeError there.
- Simulation.ChainSimulation.RunSimulation: it requires `DriverReady`, which includes that every half-life in the database is positive (`States.PositiveHalfLives`). This is the database's data contract, but the program does not check it. A zero or negative half-life, where `np.arange` with a step of 0 fails, is not modelled.
- Aliasing: `event_times.append('SF')` after the list is stored is modelled on values, as a stored row of times followed by `'SF'`.

## Findings

| source | as written | input that shows it | evidently intended | confidence | as-written member | corrected member |
|---|---|---|---|---|---|---|
| _simulations/chain_simulation.py:27-31 | both comprehensions subscript every element of `chain_data` as a `[state, label]` pair, but a walk that ends at a stable state leaves that state bare, so `x[0]` raises TypeError | a database with only a stable `206.82.0`; `Chain(State(206, 82))` | a final stable state joins `chain`, the path id ends with that state's key, and the chain has one state per element | not executed | Chains.MakeChain, Chains.StableStartRaises, Chains.ChainFailsIffStable, SimulationFacts.SimulateAsWrittenIs | Chains.MakeChainCorrected, Chains.ChainColumns, SimulationFacts.SimulateGroups |
