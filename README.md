# aiida-z2pack: band-crossing search, modelled in Dafny

This project models the part of aiida-z2pack that locates band crossings. That part is `FindCrossingsWorkChain` and its numeric helpers:

- The **gap classifier** `get_crossing_and_lowgap_points` sorts every k-point of an nscf band table by the gap between the valence and conduction bands. A gap of at most the minimum threshold makes the point *found*. A gap in (minimum, current] makes it *pinned*. Otherwise the point is in neither list.
- **`get_kpoint_grid_dimensionality`** counts the mesh axes whose count is not 1.
- **`generate_cubic_grid`** lays a cubic block of offsets around each pinned point. Each active axis gets 8 offsets. Later blocks are meant to be filtered against the rows already accepted.
- **`merge_crossing_results`** stacks every iteration's `found` rows and removes duplicates with `np.unique(axis=0)`.
- **`crop_kpoints`** keeps the mesh points that have a centre within a radius.
- **The workchain** runs in this order:
  1. an optional relax, then an scf run;
  2. a refinement loop of nscf runs on finer and finer local grids, while the loop flag is set and the k-point spacing is at least its minimum;
  3. the final decision between exit codes 152 and 142 and the merged crossings.

Modules:

| file | module | contents |
|---|---|---|
| `wrappers.dfy` | `Wrappers` | `Option`, `Result` |
| `arrays.dfy` | `Arrays` | 3-vectors, squared distances, and the numpy and scipy primitives used: `np.where` (`Where`), fancy indexing (`Take`), `query_ball_tree` (`BallQuery`, `QueryBallTree`) |
| `grid.dfy` | `Grid` | dimensionality; the offset block; `generate_cubic_grid` as written; the intended proximity filter, labelled INTENDED |
| `crop.dfy` | `Crop` | the shape check and the selection of `crop_kpoints` |
| `bands.dfy` | `Bands` | the gap classifier; band indices from the electron count |
| `crossings.dfy` | `Crossings` | `merge_crossing_results` and `np.unique` |
| `stepping.dfy` | `Stepping` | the threshold and spacing steps of `stepper`; a termination bound |
| `workchain.dfy` | `Workchain` | class `FindCrossingsWorkChain`, with one method per outline step, and the driver `RunWorkChain` |

How the model is built:

- Coordinates and energies are `real`. The code only compares, subtracts, divides and scales them.
- The relax, scf and nscf jobs are inputs of type `Jobs`: functions from what a job is given to its outcome (`finishedOk`, output structure, electron count, output bands).
- The context fields the steps mutate are fields of the class. The loop parameters fixed by `setup_nscf_loop` are grouped in `LoopConfig`.
- A step that would raise a Python exception sets the status to `Excepted(reason)`.
- The driver runs at most `fuel` loop iterations. It proves that fuel of `StepsToFloor(start, scale, min)` is enough whenever `scale > 1` and `min > 0`.

### Behaviour of the code worth knowing

The model follows the code in each case below.

- **Offsets.** The offsets of an active axis are `np.arange(-4,4) + 0.5`, which is −3.5 … 3.5 (`functions.py:69`). `Grid.AxisOffsetValues` states these values.
- **Dimensionality.** It counts the axes whose count is not 1 (`functions.py:130`). It is therefore 0 for a (1,1,1) mesh, and a count of 0 also counts as an axis.
- **No spacing floor.** The spacing is divided by its scale with no floor (`chern.py:316`), so it can end below its minimum. The gap threshold, by contrast, is floored at its minimum (`chern.py:322`).
- **Exit-code order.** `results` tests the exit-152 condition before the exit-142 condition (`chern.py:346-351`).
- **Exit 132.** `inspect_nscf` (exit 132) is not in the outline. A failed nscf run is never reported as 132. `analyze_bands` reads the output bands whatever the run's status.

### Where the code departs from its own messages

- **Loop stop.** Exit 142's message says "After two iterations" (`chern.py:146`). The loop flag is cleared after the first iteration whose result holds no pinned and no found point (`chern.py:334-336`).
- **Spacing scale.** The help text of `scale_kpoints_distance` says the spacing is divided by it (`chern.py:84`), and `stepper` reports the spacing as "reduced" (`chern.py:333`). With the default scale 0.05 (`chern.py:83`) each division enlarges the spacing (`Stepping.DistanceGrows`, `Workchain.DefaultsKeepLooping`). The stop described by the help text of `min_kpoints_distance` (`chern.py:74`) is then never reached, and exit 142 cannot occur (`Workchain.RunWorkChain`).
- **Exit 152.** Its message speaks of the maximum number of iterations (`chern.py:148`), and the report beside it of reaching the minimum spacing (`chern.py:347`). The test itself is "spacing still at or above its minimum and nothing found" (`chern.py:346`). After the loop, that means the loop flag was cleared while the spacing was still large enough (`Workchain.ResultsAfterLoop`).

## Model

| member | source | states |
|---|---|---|
| Arrays.Where | aiida_z2pack/workchains/functions.py:114-115 | `np.where` on a mask returns strictly increasing positions, exactly those where the mask holds |
| Arrays.WhereSelects | aiida_z2pack/workchains/functions.py:118-119 | indexing rows with the `np.where` positions selects, in row order, exactly the rows whose mask entry holds |
| Arrays.SelectionIsUnique | aiida_z2pack/workchains/functions.py:118-119 | two in-order selections by the same mask are equal, so a selection is determined by its mask |
| Arrays.BallQuery | aiida_z2pack/workchains/functions.py:47 | a query list holds exactly the indices of the points within radius r, and is empty iff no point is within r |
| Arrays.QueryBallTree | aiida_z2pack/workchains/functions.py:47 | `query_ball_tree` returns one list per queried point |
| Arrays.SelfQueryHits | aiida_z2pack/workchains/functions.py:81-84 | querying a point set against itself gives every point a non-empty list (the point itself) |
| Grid.Dimensionality | aiida_z2pack/workchains/functions.py:128-130 | at most the number of axes; 0 iff every count is 1; all axes iff no count is 1 |
| Grid.DimensionalityCountsAxes | aiida_z2pack/workchains/functions.py:130 | the dimensionality is the size of the set of axes whose count is not 1 |
| Grid.DimensionalityExamples | aiida_z2pack/workchains/functions.py:130 | (6,6,1) gives 2, (1,1,1) gives 0, (4,4,4) gives 3 |
| Grid.AxisOffsetValues | aiida_z2pack/workchains/functions.py:69 | an active axis takes the offsets −3.5, −2.5, …, 3.5, in that order |
| Grid.OffsetGrid | aiida_z2pack/workchains/functions.py:69-73 | the offset block has 8^k rows for k active axes, that is 8, 64 or 512 rows, and 8 also for dim 0 or 1 |
| Grid.OffsetGridAt | aiida_z2pack/workchains/functions.py:69-73 | row (i·ny + j)·nz + k of the block is (x_i, y_j, z_k)·distance: `itertools.product` order with x slowest, inactive axes at offset 0 |
| Grid.OffsetGridSpaced | aiida_z2pack/workchains/functions.py:69-73 | any two rows of the offset block are at least `distance` apart |
| Grid.TranslateSpaced | aiida_z2pack/workchains/functions.py:77 | moving a block to a centre keeps its rows as far apart as before |
| Grid.AttachRows | aiida_z2pack/workchains/functions.py:84-86 | fails with an index error iff some empty query list sits at a position beyond the block; when there is one query list per block row (as in `generate_cubic_grid`, where the query comes from the first block and every block has the same size), the attach list picks, in order, exactly the block rows whose query list is empty |
| Grid.NothingAttached | aiida_z2pack/workchains/functions.py:84-86 | when every query list is non-empty the attach list is empty |
| Grid.GenerateCubicGrid | aiida_z2pack/workchains/functions.py:57-93 | as written: no centres give no rows; one centre gives its whole offset block; two or more centres always fail, because the self-query attaches nothing and the stack fails |
| Grid.FarFrom | aiida_z2pack/workchains/functions.py:81-86 | intended filter, defined as the `np.where` selection of the block rows whose query against the accepted rows is empty; its meaning is stated by `Grid.FarFromMembers`, `Grid.FarFromNothing` and `Grid.FarFromSpaced` |
| Grid.FarFromMembers | aiida_z2pack/workchains/functions.py:81-86 | intended filter: a block row is kept iff no accepted row lies within `distance` of it |
| Grid.FarFromNothing | aiida_z2pack/workchains/functions.py:78-79 | with nothing accepted yet, the whole block is kept |
| Grid.FarFromSpaced | aiida_z2pack/workchains/functions.py:86 | filtering a block keeps its rows at least `distance` apart |
| Grid.CubicGridIntended | aiida_z2pack/workchains/functions.py:75-88 | intended grid, defined by appending each centre's filtered block; its meaning is stated by the five `Grid.Intended…` lemmas below |
| Grid.IntendedFirstBlock | aiida_z2pack/workchains/functions.py:78-79 | the first centre's whole block is kept |
| Grid.IntendedExtends | aiida_z2pack/workchains/functions.py:88 | later centres only append rows: the grid of any prefix of the centres is a prefix of the full grid |
| Grid.IntendedSound | aiida_z2pack/workchains/functions.py:77 | every row is some centre plus some offset |
| Grid.IntendedCovers | aiida_z2pack/workchains/functions.py:81-86 | every candidate centre-plus-offset lies within `distance` of some output row |
| Grid.IntendedSpaced | aiida_z2pack/workchains/functions.py:75-88 | with a spaced offset block, all output rows are pairwise at least `distance` apart |
| Grid.GenerateCubicGridIntended | aiida_z2pack/workchains/functions.py:75-88 | the loop computes the intended grid, and its rows are pairwise at least `distance` apart |
| Crop.CenterRows | aiida_z2pack/workchains/functions.py:27-29 | the centres are rejected iff the array is not two-dimensional with 3 columns; otherwise they are read as the rows of a row-major (m, 3) array |
| Crop.CropSelection | aiida_z2pack/workchains/functions.py:44-52 | the kept rows are exactly the mesh rows with a centre within r after the Cartesian map, in mesh order |
| Crop.CropMembers | aiida_z2pack/workchains/functions.py:47-52 | mesh row n is kept iff some centre lies within r of it, and every kept row is such a mesh row |
| Crop.CropKpoints | aiida_z2pack/workchains/functions.py:12-54 | fails iff the centres are not (m, 3); otherwise returns the in-order selection of mesh rows near some centre |
| Bands.At | aiida_z2pack/workchains/functions.py:112 | numpy indexing: every index accepted on an axis of length n (−n ≤ i < n) names the entry at position i mod n, so −1 is the last entry |
| Bands.Gaps | aiida_z2pack/workchains/functions.py:112 | one gap per k-point |
| Bands.Classify | aiida_z2pack/workchains/functions.py:96-121 | fails iff a band index is out of range; `found` holds exactly the k-points with gap ≤ min, and `pinned` those with min < gap ≤ current, each in k-point order |
| Bands.ClassifyPartition | aiida_z2pack/workchains/functions.py:114-119 | with distinct k-points, `pinned` and `found` are disjoint, and a point is in neither iff its gap exceeds both thresholds |
| Bands.NothingPinnedBelowMin | aiida_z2pack/workchains/functions.py:114 | when current ≤ min nothing is pinned |
| Bands.ClassifyExample | aiida_z2pack/workchains/functions.py:112-119 | gaps 0.5 and 0.0001 with thresholds 0.3 and 0.001 pin nothing and find the second point |
| Bands.TruncToInt | aiida_z2pack/workchains/chern.py:238 | Python `int()` on a float truncates toward zero |
| Bands.ConductionBand | aiida_z2pack/workchains/chern.py:238 | with spin-orbit, cb is the truncated electron count; without it, cb is that count halved and rounded down |
| Bands.ValenceBand | aiida_z2pack/workchains/chern.py:238-239 | the highest occupied band, counted from 0: with spin-orbit, vb is the truncated electron count minus 1; without it, the truncated count lies in [2vb + 2, 2vb + 4), two electrons per band |
| Bands.BandIndexExamples | aiida_z2pack/workchains/chern.py:237-239 | 10 electrons give (vb, cb) = (4, 5) without spin-orbit and (9, 10) with it |
| Crossings.Concat | aiida_z2pack/workchains/functions.py:137-140 | the stacked rows are exactly the rows found in some input array |
| Crossings.InsertSorted | aiida_z2pack/workchains/functions.py:142 | inserting a row keeps the rows strictly sorted and adds exactly that row |
| Crossings.Unique | aiida_z2pack/workchains/functions.py:142 | `np.unique(axis=0)` gives rows strictly increasing in lexicographic order, with the same members as its input |
| Crossings.SortedByMembers | aiida_z2pack/workchains/functions.py:142 | two strictly sorted row lists with the same members are equal |
| Crossings.MergeCrossingResults | aiida_z2pack/workchains/functions.py:136-147 | the loop's result is strictly sorted, free of duplicates, and holds exactly the rows found in some argument |
| Crossings.MergedByMembers | aiida_z2pack/workchains/functions.py:137-142 | the merge depends only on which rows were found, not on how they were split into arguments |
| Crossings.MergedCommutes | aiida_z2pack/workchains/functions.py:137-142 | swapping two groups of arguments does not change the merge |
| Crossings.MergedIdempotent | aiida_z2pack/workchains/functions.py:142 | merging a merged result again leaves it unchanged |
| Stepping.NextThreshold | aiida_z2pack/workchains/chern.py:318-322 | the next threshold is at least the minimum; it is threshold/scale when that is at least the minimum, and the minimum otherwise |
| Stepping.ThresholdNonIncreasing | aiida_z2pack/workchains/chern.py:322 | with scale ≥ 1, min ≥ 0 and threshold ≥ min, a step never raises the threshold and never takes it below min |
| Stepping.ThresholdAfter | aiida_z2pack/workchains/chern.py:322 | after at least one step the threshold is at least the minimum |
| Stepping.ThresholdSettles | aiida_z2pack/workchains/chern.py:322 | with scale ≥ 1, min ≥ 0 and start ≥ min, every later threshold lies between the minimum and the start |
| Stepping.DistanceAfter | aiida_z2pack/workchains/chern.py:316 | the spacing after n divisions; zero divisions leave it unchanged, and a positive scale keeps it positive exactly when it started positive |
| Stepping.DistanceStep | aiida_z2pack/workchains/chern.py:316 | a positive spacing shrinks when scale > 1 and grows when 0 < scale < 1 |
| Stepping.DistanceBound | aiida_z2pack/workchains/chern.py:316 | for a start d ≥ 0 and s ≥ 1, after n divisions the spacing is nonnegative and the spacing times 1 + n(s − 1) is at most d |
| Stepping.DistanceGrows | aiida_z2pack/workchains/chern.py:81-85 | for a positive start and a scale in (0, 1), such as the default 0.05, the spacing never drops below its start |
| Stepping.DistanceNonIncreasing | aiida_z2pack/workchains/chern.py:316 | for a start d ≥ 0 and s ≥ 1, the spacing stays between 0 and d |
| Stepping.DistanceStaysNegative | aiida_z2pack/workchains/chern.py:316 | with a positive scale, a negative spacing stays negative |
| Stepping.FloorReached | aiida_z2pack/workchains/chern.py:256-258 | with s > 1 and min > 0, from `StepsToFloor` steps on, the spacing is below min and the loop condition fails |
| Workchain.DefaultsKeepLooping | aiida_z2pack/workchains/chern.py:71-110 | with every optional input at its declared default (`Workchain.WithDefaults`), the spacing never falls below its minimum after any number of steps, and the gap threshold stays between its minimum and its start |
| Workchain.DecideResults | aiida_z2pack/workchains/chern.py:345-354 | exit 152 iff spacing ≥ min and nothing was merged; exit 142 iff spacing < min, the loop flag is cleared and nothing was merged; otherwise the merged crossings are output |
| Workchain.ResultsAfterLoop | aiida_z2pack/workchains/chern.py:346-351 | after the loop, exit 152 means the flag was cleared with nothing found while the spacing was still ≥ min; an empty output needs spacing < min with the flag still set |
| Workchain.Analysis | aiida_z2pack/workchains/chern.py:297-309 | a run without output bands raises; otherwise the run fails iff a band index is out of range, and succeeds with the classifier's result |
| Workchain.FindCrossingsWorkChain.ShouldDoRelax | aiida_z2pack/workchains/chern.py:159-161 | relax exactly when the `relax` namespace was given; `Workchain.RunWorkChain` states the consequence: exit 112 iff that relax ran and failed |
| Workchain.FindCrossingsWorkChain.constructor | aiida_z2pack/workchains/chern.py:154-157 | `setup`: the current structure is the input structure |
| Workchain.FindCrossingsWorkChain.InspectRelax | aiida_z2pack/workchains/chern.py:177-185 | a failed relax gives exit 112; a successful one replaces the current structure; nothing else changes |
| Workchain.FindCrossingsWorkChain.InspectScf | aiida_z2pack/workchains/chern.py:205-213 | a failed scf gives exit 122; nothing else changes |
| Workchain.FindCrossingsWorkChain.SetupNscfLoop | aiida_z2pack/workchains/chern.py:215-254 | iteration 0; band indices from the scf electron count; spacing and threshold at their starting values; dimensionality of the starting mesh (k-points given as a list raise); no results; loop flag set; for a mesh the whole loop configuration is `Workchain.ConfigOf` of the inputs and the scf outcome |
| Workchain.FindCrossingsWorkChain.ShouldFindZeroGap | aiida_z2pack/workchains/chern.py:256-258 | loop while the flag is set and the spacing is at least its minimum; `Workchain.FindCrossingsWorkChain.RefinementLoop` states that a running loop that still satisfies it has spent all its fuel |
| Workchain.FindCrossingsWorkChain.SetupGrid | aiida_z2pack/workchains/chern.py:260-268 | corrected step: the starting k-points at iteration 0; afterwards the intended cubic grid around the last result's pinned points, whose rows are pairwise at least the spacing apart |
| Workchain.FindCrossingsWorkChain.SetupGridEvidentCall | aiida_z2pack/workchains/chern.py:260-268 | with only the stray argument removed: the starting k-points at iteration 0; afterwards the cubic grid as written, which raises (stack-shape failure) whenever the last result pinned two or more points, gives the single block for one pinned point, and no points for none |
| Workchain.FindCrossingsWorkChain.SetupGridAsWritten | aiida_z2pack/workchains/chern.py:260-268 | as written: the starting k-points at iteration 0; afterwards the step raises on the never-assigned `ctx.structure` |
| Workchain.FindCrossingsWorkChain.RunNscf | aiida_z2pack/workchains/chern.py:270-282 | the iteration grows by exactly 1 and exactly one nscf run is appended |
| Workchain.FindCrossingsWorkChain.AnalyzeBands | aiida_z2pack/workchains/chern.py:294-311 | exactly one classification of the last run's bands, with the current and minimum thresholds, is appended; otherwise the step raises |
| Workchain.FindCrossingsWorkChain.Stepper | aiida_z2pack/workchains/chern.py:313-336 | spacing divided by its scale with no floor; threshold = max(threshold/scale, min); the loop flag is kept iff it was set and the last result is non-empty; a zero scale raises |
| Workchain.FindCrossingsWorkChain.Iterate | aiida_z2pack/workchains/chern.py:123-127 | one pass of the loop body adds one iteration, one nscf run and one result. Unless it raises, `Workchain.OnePass` holds between the state before and after: the earlier runs and results are kept; the new run is the nscf job of this iteration on the k-points `setup_grid` chose (the starting k-points at iteration 0, otherwise the intended cubic grid around the previous result's pinned points); the new result is `Workchain.Analysis` of that run at the threshold in force before the step; the loop flag stays set iff it was set and the new result holds a pinned or found point; the spacing is divided once by its scale and the threshold takes one `Stepping.NextThreshold` step |
| Workchain.FindCrossingsWorkChain.RecordedIterate | aiida_z2pack/workchains/chern.py:123-127 | a pass started from the spacing and threshold after k steps and from the record of the k earlier passes ends, unless it raises, with both after k + 1 steps, with the record (`Workchain.PassesRecorded`) of k + 1 passes, and with the loop flag kept iff the new result holds a pinned or found point |
| Workchain.PassRecorded | aiida_z2pack/workchains/chern.py:123-127 | what one pass does (`Workchain.OnePass`), applied after k recorded steps, yields the spacing `Stepping.DistanceAfter` and the threshold `Stepping.ThresholdAfter` at k + 1 and extends the record of the passes by the new result and its k-points |
| Workchain.FindCrossingsWorkChain.RefinementLoop | aiida_z2pack/workchains/chern.py:122-128 | the loop keeps the number of results equal to the iteration count; after n iterations the spacing is `Stepping.DistanceAfter` (start divided n times by its scale) and the gap threshold is `Stepping.ThresholdAfter` (n threshold steps from its start); every pass k is recorded (`Workchain.PassesRecorded`): its result is `Workchain.Analysis` of the nscf job of iteration k at the threshold after k steps, run on the starting k-points for k = 0 and on the intended cubic grid around pass k − 1's pinned points at the spacing after k steps otherwise; a cleared flag means the last result held no pinned and no found point; it stops with the flag cleared, the spacing below min, fuel spent, or an exception |
| Workchain.FindCrossingsWorkChain.LoopThenResults | aiida_z2pack/workchains/chern.py:122-130 | the loop and then `results`, from the state `setup_nscf_loop` leaves: either the fuel runs out with the loop still wanting to run, or the workchain ends; a failure is exit 142 or 152; a success comes after at least one iteration with the `Workchain.MergedFound` crossings of the recorded passes, sorted and distinct; the default spacing inputs never give 142; with scale > 1 and min > 0, `StepsToFloor` iterations of fuel suffice |
| Workchain.FindCrossingsWorkChain.Results | aiida_z2pack/workchains/chern.py:338-354 | raises when no nscf run exists; otherwise the outcome is the decision table applied to the merged `found` rows |
| Workchain.RunWorkChain | aiida_z2pack/workchains/chern.py:113-130 | exit 112 iff the relax ran and failed; exit 122 iff no relax failed and the scf on the (possibly relaxed) structure failed; never 132; only 112, 122, 142 or 152 as exit codes; a successful outcome comes from a mesh input after at least one iteration, and its crossings are `Workchain.MergedFound` of the iterations' results, each of which is the classification recorded by `Workchain.PassesRecorded` for the loop configuration that `setup_nscf_loop` derives from the inputs and the scf outcome; output crossings sorted and distinct; list-form k-points raise; the default spacing inputs never give 142; with scale > 1 and min > 0, `StepsToFloor` iterations of fuel suffice |

## Left out

- The reciprocal-basis transform `recipr_base` and the crystal-to-Cartesian products in `crop_kpoints`. The map is a parameter `toCart` of the model. Its 2π floating-point numerics are not modelled.
- The internals of scipy `KDTree`. A ball query is specified by squared Euclidean distance ≤ r², so a negative radius behaves like its absolute value. The model returns query hits in increasing index order; scipy's order is not specified, and only whether a list is empty is used.
- The `MemoryError` path in `crop_kpoints`, which depends on memory allocation.
- The `isinstance` checks that raise `ValueError`. Dafny's types rule those inputs out.
- `copy_array_data`, which is a plain copy of arrays.
- AiiDA plumbing: `submit`, `ToContext`, `append_`, `report`, exposed inputs, parameter-dictionary edits and the scf remote folder. The `run_relax`, `run_scf` and `run_nscf` submissions are the `Jobs` inputs.
- Workchain.FindCrossingsWorkChain.Results: `results` calls `merge_crossing_results`, whose signature is `*args`, with keyword arguments. The model passes the per-iteration results positionally, in iteration order. Whether the process-function wrapper accepts keyword arguments is not modelled.
- `Z2pack3DChernWorkChain`, which only sequences submissions.
- `prepare_wannier90.py` and the tests. They write files or exercise a calculation whose source is not part of this model.
- Floating-point rounding. All coordinates, energies, spacings and thresholds are exact reals.
- Concurrency and suspension of the workflow engine.
- Workchain.RunWorkChain: the loop is cut off after `fuel` iterations and then returns `FuelExhausted`. With a scale of at most 1 the spacing gives no termination measure, so the workflow engine's unbounded loop is not modelled.
- Workchain.RunWorkChain: the driver runs `setup_grid` with both corrections (the stray argument removed and the intended filter). It therefore does not show that, with only the stray argument removed, the second `setup_grid` raises whenever the previous iteration pinned two or more points; `Workchain.FindCrossingsWorkChain.SetupGridEvidentCall` states that behaviour on its own.
- Grid.GenerateCubicGridIntended: the intended generator appends a possibly empty list of rows. It does not reproduce the failure that `np.vstack` with a one-dimensional empty array would still cause once the trees were fixed.

## Findings

| source | as written | input that shows it | evidently intended | confidence | as-written member | corrected member |
|---|---|---|---|---|---|---|
| aiida_z2pack/workchains/chern.py:266-268 | `setup_grid` passes `self.ctx.structure`, which no step ever assigns, as an extra first argument to `generate_cubic_grid` | any run whose first nscf iteration leaves the loop condition true: the second `setup_grid` raises on the missing context attribute | `generate_cubic_grid(found_crossings[-1], distance, dim)` | not executed | Workchain.FindCrossingsWorkChain.SetupGridAsWritten | Workchain.FindCrossingsWorkChain.SetupGrid |
| aiida_z2pack/workchains/functions.py:81-84 | both KD-trees are built from the accepted rows `res`, so the new block is never queried | two pinned centres: every query list contains its own point, the attach list is an empty one-dimensional array, and `np.vstack` fails | query the new block against the accepted rows and attach the block rows with no accepted row within `distance` | not executed | Grid.GenerateCubicGrid | Grid.GenerateCubicGridIntended |
