/**
 * `FindCrossingsWorkChain`: optional relax, scf, then a refinement loop of
 * nscf runs on ever finer local k-point grids around low-gap points, and a
 * final merge of the crossings found. The PW jobs are abstract inputs.
 */
module Workchain {
  import opened Wrappers
  import opened Arrays
  import Grid
  import opened Bands
  import opened Crossings
  import opened Stepping

  const ERROR_SUB_PROCESS_FAILED_RELAX: nat := 112
  const ERROR_SUB_PROCESS_FAILED_SCF: nat := 122
  const ERROR_SUB_PROCESS_FAILED_NSCF: nat := 132
  const ERROR_CANT_PINPOINT_LOWGAP_ZONE: nat := 142
  const ERROR_MAXIMUM_ITERATIONS_EXCEEDED: nat := 152

  /** A crystal structure; only its identity matters here. */
  datatype Structure = Structure(id: nat)

  /** A `KpointsData` node: either a mesh of per-axis counts or an explicit list of points. */
  datatype KpointsData = Mesh(counts: seq<int>) | Points(points: seq<Vec3>)

  /** Band tables as the nscf job returns them. */
  type WellFormedBands = b: BandsData | WellFormed(b) witness BandsData([], [], 0)

  datatype RelaxOutcome = RelaxOutcome(finishedOk: bool, outputStructure: Structure)
  datatype ScfOutcome = ScfOutcome(finishedOk: bool, numberOfElectrons: real, spinOrbit: bool)
  datatype NscfOutcome = NscfOutcome(finishedOk: bool, outputBand: Option<WellFormedBands>)

  /**
   * The PW jobs the workchain submits, as functions of what they are given:
   * the relax and scf jobs of a structure, and the nscf job of an iteration
   * (counted from 0) on a set of k-points.
   */
  datatype Jobs = Jobs(
    relax: Structure -> RelaxOutcome,
    scf: Structure -> ScfOutcome,
    nscf: (nat, KpointsData) -> NscfOutcome)

  /** The workchain inputs that the logic reads; `relax` says whether the `relax` namespace was given. */
  datatype Inputs = Inputs(
    structure: Structure,
    relax: bool,
    startingKpoints: KpointsData,
    minKpointsDistance: real,
    startingKpointsDistance: real,
    scaleKpointsDistance: real,
    startingGapThreshold: real,
    minGapThreshold: real,
    scaleGapThreshold: real)

  /** The inputs with every optional value at its declared default. */
  function WithDefaults(structure: Structure, relax: bool, startingKpoints: KpointsData): Inputs {
    Inputs(structure, relax, startingKpoints, 0.0001, 0.05, 0.05, 0.3, 0.001, 5.0)
  }

  /**
   * With every optional input at its default the spacing scale 0.05 lies below
   * 1, so each step enlarges the spacing and it never falls below its minimum;
   * the gap threshold, scaled by 5, stays between its minimum and its start.
   */
  lemma {:induction false} DefaultsKeepLooping(structure: Structure, relax: bool, startingKpoints: KpointsData, n: nat)
    ensures var i := WithDefaults(structure, relax, startingKpoints);
      DistanceAfter(i.startingKpointsDistance, i.scaleKpointsDistance, n) >= i.minKpointsDistance
    ensures var i := WithDefaults(structure, relax, startingKpoints);
      i.minGapThreshold <= ThresholdAfter(i.startingGapThreshold, i.scaleGapThreshold, i.minGapThreshold, n) <= i.startingGapThreshold
  {
    DistanceGrows(0.05, 0.05, n);
    ThresholdSettles(0.3, 5.0, 0.001, n);
  }

  /** Why a step raised instead of returning. */
  datatype Exception =
    | MeshMissing                  // `get_kpoints_mesh` on k-points given as a list
    | MissingContextAttribute      // reading a context entry that was never assigned
    | BandFailure(band: BandError)
    | MissingOutputBand            // the nscf job left no `output_band`
    | ZeroDivision
    | GridFailure(grid: Grid.GridError)

  datatype Status =
    | Running
    | Failed(exitCode: nat)
    | Excepted(error: Exception)
    | Succeeded(crossings: seq<Vec3>)

  /** The loop parameters fixed by `setup_nscf_loop`. */
  datatype LoopConfig = LoopConfig(
    minKpointsDistance: real,
    scaleKpointsDistance: real,
    minGapThreshold: real,
    scaleGapThreshold: real,
    vb: int,
    cb: int,
    dim: nat)

  /**
   * The loop parameters `setup_nscf_loop` derives from a mesh input and the
   * scf outcome: the input spacings and thresholds, the band indices from the
   * electron count, and the dimensionality of the starting mesh.
   */
  function ConfigOf(inputs: Inputs, scf: ScfOutcome): LoopConfig
    requires inputs.startingKpoints.Mesh?
  {
    LoopConfig(inputs.minKpointsDistance, inputs.scaleKpointsDistance, inputs.minGapThreshold, inputs.scaleGapThreshold,
      ValenceBand(scf.numberOfElectrons, scf.spinOrbit), ConductionBand(scf.numberOfElectrons, scf.spinOrbit),
      Grid.Dimensionality(inputs.startingKpoints.counts))
  }

  /** `merge_crossing_results` over every iteration's `found` array. */
  function MergedFound(results: seq<GapPoints>): seq<Vec3> {
    Merged(seq(|results|, n requires 0 <= n < |results| => results[n].found))
  }

  /**
   * The decision of `results`: no crossing with the spacing still at or above
   * its minimum is exit 152; otherwise no crossing with the loop stopped is
   * exit 142; otherwise the merged crossings are the output.
   */
  function DecideResults(distance: real, minDistance: real, doLoop: bool, crossings: seq<Vec3>): (s: Status)
    ensures s == Failed(ERROR_MAXIMUM_ITERATIONS_EXCEEDED) <==> distance >= minDistance && crossings == []
    ensures s == Failed(ERROR_CANT_PINPOINT_LOWGAP_ZONE) <==> distance < minDistance && !doLoop && crossings == []
    ensures s.Succeeded? <==> crossings != [] || (distance < minDistance && doLoop)
    ensures s.Succeeded? ==> s.crossings == crossings
  {
    if distance >= minDistance && |crossings| == 0 then Failed(ERROR_MAXIMUM_ITERATIONS_EXCEEDED)
    else if !doLoop && |crossings| == 0 then Failed(ERROR_CANT_PINPOINT_LOWGAP_ZONE)
    else Succeeded(crossings)
  }

  /**
   * Once the loop has stopped (no low-gap point left, or spacing below its
   * minimum), exit 152 is exactly "loop stopped with nothing found while the
   * spacing was still large enough", and exit 142 needs both stop reasons.
   */
  lemma ResultsAfterLoop(distance: real, minDistance: real, doLoop: bool, crossings: seq<Vec3>)
    requires !(doLoop && distance >= minDistance)
    ensures DecideResults(distance, minDistance, doLoop, crossings) == Failed(ERROR_MAXIMUM_ITERATIONS_EXCEEDED)
      <==> !doLoop && distance >= minDistance && crossings == []
    ensures DecideResults(distance, minDistance, doLoop, crossings).Succeeded? && crossings == []
      ==> doLoop && distance < minDistance
  {
  }

  class FindCrossingsWorkChain {
    const inputs: Inputs
    var currentStructure: Structure
    var config: LoopConfig
    var iteration: nat
    var currentKpointsDistance: real
    var currentGapThreshold: real
    var doLoop: bool
    var foundCrossings: seq<GapPoints>
    var currentKpoints: KpointsData
    var nscfRuns: seq<NscfOutcome>
    var status: Status

    /** `setup`: the current structure is the input structure. */
    constructor (inputs: Inputs)
      ensures this.inputs == inputs && currentStructure == inputs.structure
      ensures status == Running && iteration == 0 && foundCrossings == [] && nscfRuns == []
    {
      this.inputs := inputs;
      currentStructure := inputs.structure;
      config := LoopConfig(0.0, 0.0, 0.0, 0.0, 0, 0, 0);
      iteration := 0;
      currentKpointsDistance := 0.0;
      currentGapThreshold := 0.0;
      doLoop := false;
      foundCrossings := [];
      currentKpoints := inputs.startingKpoints;
      nscfRuns := [];
      status := Running;
    }

    /** `should_do_relax`: relax only when the `relax` namespace was given. */
    predicate ShouldDoRelax() {
      inputs.relax
    }

    /** `inspect_relax`: a failed relax ends the run with 112, a successful one replaces the structure. */
    method InspectRelax(outcome: RelaxOutcome)
      requires status == Running
      modifies this
      ensures !outcome.finishedOk ==> status == Failed(ERROR_SUB_PROCESS_FAILED_RELAX) && currentStructure == old(currentStructure)
      ensures outcome.finishedOk ==> status == Running && currentStructure == outcome.outputStructure
      ensures config == old(config) && iteration == old(iteration) && foundCrossings == old(foundCrossings)
      ensures nscfRuns == old(nscfRuns) && currentKpoints == old(currentKpoints)
      ensures currentKpointsDistance == old(currentKpointsDistance) && currentGapThreshold == old(currentGapThreshold)
      ensures doLoop == old(doLoop)
    {
      if !outcome.finishedOk {
        status := Failed(ERROR_SUB_PROCESS_FAILED_RELAX);
      } else {
        currentStructure := outcome.outputStructure;
      }
    }

    /** `inspect_scf`: a failed scf ends the run with 122. */
    method InspectScf(outcome: ScfOutcome)
      requires status == Running
      modifies this
      ensures status == (if outcome.finishedOk then Running else Failed(ERROR_SUB_PROCESS_FAILED_SCF))
      ensures currentStructure == old(currentStructure) && config == old(config) && iteration == old(iteration)
      ensures foundCrossings == old(foundCrossings) && nscfRuns == old(nscfRuns) && currentKpoints == old(currentKpoints)
      ensures currentKpointsDistance == old(currentKpointsDistance) && currentGapThreshold == old(currentGapThreshold)
      ensures doLoop == old(doLoop)
    {
      if !outcome.finishedOk {
        status := Failed(ERROR_SUB_PROCESS_FAILED_SCF);
      }
    }

    /**
     * `setup_nscf_loop`: band indices from the scf electron count, spacing and
     * threshold at their starting values, dimensionality of the starting mesh
     * (which fails for k-points given as a list), no results, loop enabled.
     */
    method SetupNscfLoop(scf: ScfOutcome)
      requires status == Running
      modifies this
      ensures inputs.startingKpoints.Points? ==> status == Excepted(MeshMissing)
      ensures inputs.startingKpoints.Mesh? ==> status == Running && doLoop
      ensures inputs.startingKpoints.Mesh? ==> config == ConfigOf(inputs, scf)
      ensures iteration == 0 && foundCrossings == [] && nscfRuns == old(nscfRuns)
      ensures currentKpointsDistance == inputs.startingKpointsDistance && currentGapThreshold == inputs.startingGapThreshold
      ensures currentStructure == old(currentStructure) && currentKpoints == old(currentKpoints)
    {
      iteration := 0;
      var cb := ConductionBand(scf.numberOfElectrons, scf.spinOrbit);
      var vb := cb - 1;
      currentKpointsDistance := inputs.startingKpointsDistance;
      currentGapThreshold := inputs.startingGapThreshold;
      match inputs.startingKpoints
      case Points(_) =>
        status := Excepted(MeshMissing);
        foundCrossings := [];
      case Mesh(counts) =>
        config := LoopConfig(inputs.minKpointsDistance, inputs.scaleKpointsDistance,
          inputs.minGapThreshold, inputs.scaleGapThreshold, vb, cb, Grid.Dimensionality(counts));
        foundCrossings := [];
        doLoop := true;
    }

    /** `should_find_zero_gap`: loop while enabled and the spacing is at least its minimum. */
    predicate ShouldFindZeroGap()
      reads this
    {
      doLoop && currentKpointsDistance >= config.minKpointsDistance
    }

    /**
     * `setup_grid` with both defects corrected: the evident call on the last
     * result's pinned points, and the intended proximity filter of the cubic
     * grid. The starting k-points serve the first iteration.
     */
    method SetupGrid()
      requires status == Running && iteration == |foundCrossings|
      modifies this
      ensures currentStructure == old(currentStructure) && config == old(config) && iteration == old(iteration)
      ensures foundCrossings == old(foundCrossings) && nscfRuns == old(nscfRuns) && doLoop == old(doLoop)
      ensures currentKpointsDistance == old(currentKpointsDistance) && currentGapThreshold == old(currentGapThreshold)
      ensures status == Running
      ensures iteration == 0 ==> currentKpoints == inputs.startingKpoints
      ensures iteration > 0 ==> currentKpoints == Points(Grid.CubicGridIntended(foundCrossings[iteration - 1].pinned,
        Grid.OffsetGrid(config.dim, currentKpointsDistance), currentKpointsDistance))
      ensures iteration > 0 ==> Grid.Spaced(currentKpoints.points, currentKpointsDistance)
    {
      if iteration == 0 {
        currentKpoints := inputs.startingKpoints;
      } else {
        var last := foundCrossings[|foundCrossings| - 1];
        var points := Grid.GenerateCubicGridIntended(last.pinned, currentKpointsDistance, config.dim);
        currentKpoints := Points(points);
      }
    }

    /**
     * `setup_grid` with only the stray argument removed: the cubic grid as
     * written around the last result's pinned points. Two or more pinned
     * points make its final stacking raise.
     */
    method SetupGridEvidentCall()
      requires status == Running && iteration == |foundCrossings|
      modifies this
      ensures currentStructure == old(currentStructure) && config == old(config) && iteration == old(iteration)
      ensures foundCrossings == old(foundCrossings) && nscfRuns == old(nscfRuns) && doLoop == old(doLoop)
      ensures currentKpointsDistance == old(currentKpointsDistance) && currentGapThreshold == old(currentGapThreshold)
      ensures iteration == 0 ==> status == Running && currentKpoints == inputs.startingKpoints
      ensures iteration > 0 && |foundCrossings[iteration - 1].pinned| >= 2 ==>
        status == Excepted(GridFailure(Grid.StackShapeMismatch)) && currentKpoints == old(currentKpoints)
      ensures iteration > 0 && |foundCrossings[iteration - 1].pinned| == 1 ==>
        status == Running && currentKpoints == Points(Grid.Translate(foundCrossings[iteration - 1].pinned[0],
          Grid.OffsetGrid(config.dim, currentKpointsDistance)))
      ensures iteration > 0 && foundCrossings[iteration - 1].pinned == [] ==> status == Running && currentKpoints == Points([])
    {
      if iteration == 0 {
        currentKpoints := inputs.startingKpoints;
      } else {
        var last := foundCrossings[|foundCrossings| - 1];
        var r := Grid.GenerateCubicGrid(last.pinned, currentKpointsDistance, config.dim);
        match r
        case Ok(points) => currentKpoints := Points(points);
        case Err(e) => status := Excepted(GridFailure(e));
      }
    }

    /**
     * `setup_grid` as written: after the first iteration it reads
     * `ctx.structure`, which no step ever assigns, and raises.
     */
    method SetupGridAsWritten()
      requires status == Running
      modifies this
      ensures iteration == 0 ==> status == Running && currentKpoints == inputs.startingKpoints
      ensures iteration > 0 ==> status == Excepted(MissingContextAttribute) && currentKpoints == old(currentKpoints)
      ensures currentStructure == old(currentStructure) && config == old(config) && iteration == old(iteration)
      ensures foundCrossings == old(foundCrossings) && nscfRuns == old(nscfRuns) && doLoop == old(doLoop)
      ensures currentKpointsDistance == old(currentKpointsDistance) && currentGapThreshold == old(currentGapThreshold)
    {
      if iteration == 0 {
        currentKpoints := inputs.startingKpoints;
      } else {
        status := Excepted(MissingContextAttribute);
      }
    }

    /** `run_nscf`: one more iteration, and the job's outcome appended to the runs. */
    method RunNscf(outcome: NscfOutcome)
      requires status == Running
      modifies this
      ensures iteration == old(iteration) + 1 && nscfRuns == old(nscfRuns) + [outcome]
      ensures status == Running && currentStructure == old(currentStructure) && config == old(config)
      ensures foundCrossings == old(foundCrossings) && currentKpoints == old(currentKpoints) && doLoop == old(doLoop)
      ensures currentKpointsDistance == old(currentKpointsDistance) && currentGapThreshold == old(currentGapThreshold)
    {
      iteration := iteration + 1;
      nscfRuns := nscfRuns + [outcome];
    }

    /**
     * `analyze_bands`: classify the last nscf run's bands against the current
     * and minimum gap thresholds and append the result. The run's success flag
     * is not consulted; a run without bands raises.
     */
    method AnalyzeBands()
      requires status == Running && iteration >= 1 && |nscfRuns| == iteration
      modifies this
      ensures currentStructure == old(currentStructure) && config == old(config) && iteration == old(iteration)
      ensures nscfRuns == old(nscfRuns) && currentKpoints == old(currentKpoints) && doLoop == old(doLoop)
      ensures currentKpointsDistance == old(currentKpointsDistance) && currentGapThreshold == old(currentGapThreshold)
      ensures var a := Analysis(nscfRuns[iteration - 1], config, currentGapThreshold);
        (a.Ok? ==> status == Running && foundCrossings == old(foundCrossings) + [a.value]) &&
        (a.Err? ==> status == Excepted(a.error) && foundCrossings == old(foundCrossings))
    {
      var a := Analysis(nscfRuns[iteration - 1], config, currentGapThreshold);
      match a
      case Ok(points) => foundCrossings := foundCrossings + [points];
      case Err(e) => status := Excepted(e);
    }

    /**
     * `stepper`: the spacing is divided by its scale (no floor), the threshold
     * becomes `max(threshold / scale, min)`, and the loop is disabled when the
     * last result holds no pinned and no found point. A zero scale raises.
     */
    method Stepper()
      requires status == Running && |foundCrossings| >= 1
      modifies this
      ensures currentStructure == old(currentStructure) && config == old(config) && iteration == old(iteration)
      ensures foundCrossings == old(foundCrossings) && nscfRuns == old(nscfRuns) && currentKpoints == old(currentKpoints)
      ensures config.scaleKpointsDistance == 0.0 ==>
        status == Excepted(ZeroDivision) && currentKpointsDistance == old(currentKpointsDistance)
        && currentGapThreshold == old(currentGapThreshold) && doLoop == old(doLoop)
      ensures config.scaleKpointsDistance != 0.0 ==> currentKpointsDistance == old(currentKpointsDistance) / config.scaleKpointsDistance
      ensures config.scaleKpointsDistance != 0.0 && config.scaleGapThreshold == 0.0 ==>
        status == Excepted(ZeroDivision) && currentGapThreshold == old(currentGapThreshold) && doLoop == old(doLoop)
      ensures config.scaleKpointsDistance != 0.0 && config.scaleGapThreshold != 0.0 ==>
        var last := foundCrossings[|foundCrossings| - 1];
        status == Running
        && currentGapThreshold == NextThreshold(old(currentGapThreshold), config.scaleGapThreshold, config.minGapThreshold)
        && doLoop == (old(doLoop) && |last.pinned| + |last.found| != 0)
    {
      if config.scaleKpointsDistance == 0.0 {
        status := Excepted(ZeroDivision);
        return;
      }
      currentKpointsDistance := currentKpointsDistance / config.scaleKpointsDistance;
      if config.scaleGapThreshold == 0.0 {
        status := Excepted(ZeroDivision);
        return;
      }
      currentGapThreshold := NextThreshold(currentGapThreshold, config.scaleGapThreshold, config.minGapThreshold);
      var last := foundCrossings[|foundCrossings| - 1];
      if |last.pinned| + |last.found| == 0 {
        doLoop := false;
      }
    }

    /**
     * The outline's `while_(should_find_zero_gap)` block, cut off after
     * `fuel` iterations: setup_grid, run_nscf, analyze_bands, stepper. The
     * ghost result records the k-points of every pass.
     */
    method RefinementLoop(jobs: Jobs, fuel: nat) returns (ghost grids: seq<KpointsData>)
      requires status == Running && iteration == 0 && foundCrossings == [] && nscfRuns == [] && doLoop
      requires currentKpointsDistance == inputs.startingKpointsDistance
      requires currentGapThreshold == inputs.startingGapThreshold
      modifies this
      ensures config == old(config)
      ensures status == Running || status.Excepted?
      ensures status == Running ==> iteration == |foundCrossings| == |nscfRuns|
      ensures iteration <= fuel
      ensures status == Running && ShouldFindZeroGap() ==> iteration == fuel
      ensures status == Running && iteration == 0 ==>
        currentKpointsDistance == inputs.startingKpointsDistance && currentGapThreshold == inputs.startingGapThreshold && doLoop
      ensures status == Running && iteration > 0 ==>
        config.scaleKpointsDistance != 0.0 && config.scaleGapThreshold != 0.0
        && currentKpointsDistance == DistanceAfter(inputs.startingKpointsDistance, config.scaleKpointsDistance, iteration)
        && currentGapThreshold == ThresholdAfter(inputs.startingGapThreshold, config.scaleGapThreshold,
          config.minGapThreshold, iteration)
        && PassesRecorded(jobs, inputs, config, foundCrossings, grids)
      ensures status == Running && !doLoop ==>
        iteration > 0 && |foundCrossings[iteration - 1].pinned| + |foundCrossings[iteration - 1].found| == 0
    {
      grids := [];
      while status == Running && ShouldFindZeroGap() && iteration < fuel
        invariant config == old(config)
        invariant status == Running || status.Excepted?
        invariant status == Running ==> iteration == |foundCrossings| == |nscfRuns| == |grids|
        invariant iteration <= fuel
        invariant status == Running && iteration == 0 ==>
          currentKpointsDistance == inputs.startingKpointsDistance && currentGapThreshold == inputs.startingGapThreshold
          && doLoop
        invariant status == Running && iteration > 0 ==>
          config.scaleKpointsDistance != 0.0 && config.scaleGapThreshold != 0.0
          && currentKpointsDistance == DistanceAfter(inputs.startingKpointsDistance, config.scaleKpointsDistance, iteration)
          && currentGapThreshold == ThresholdAfter(inputs.startingGapThreshold, config.scaleGapThreshold,
            config.minGapThreshold, iteration)
          && PassesRecorded(jobs, inputs, config, foundCrossings, grids)
        invariant status == Running && !doLoop ==>
          iteration > 0 && |foundCrossings[iteration - 1].pinned| + |foundCrossings[iteration - 1].found| == 0
        decreases fuel - iteration
      {
        grids := RecordedIterate(jobs, grids);
      }
    }

    /** One pass of the loop body, with the record of the passes extended by it. */
    method RecordedIterate(jobs: Jobs, ghost grids: seq<KpointsData>) returns (ghost grids': seq<KpointsData>)
      requires status == Running && iteration == |foundCrossings| == |nscfRuns| == |grids|
      requires iteration == 0 ==>
        currentKpointsDistance == inputs.startingKpointsDistance && currentGapThreshold == inputs.startingGapThreshold
      requires iteration > 0 ==>
        config.scaleKpointsDistance != 0.0 && config.scaleGapThreshold != 0.0
        && currentKpointsDistance == DistanceAfter(inputs.startingKpointsDistance, config.scaleKpointsDistance, iteration)
        && currentGapThreshold == ThresholdAfter(inputs.startingGapThreshold, config.scaleGapThreshold,
          config.minGapThreshold, iteration)
        && PassesRecorded(jobs, inputs, config, foundCrossings, grids)
      modifies this
      ensures config == old(config) && iteration == old(iteration) + 1
      ensures status == Running || status.Excepted?
      ensures status == Running ==>
        iteration == |foundCrossings| == |nscfRuns| == |grids'|
        && config.scaleKpointsDistance != 0.0 && config.scaleGapThreshold != 0.0
        && currentKpointsDistance == DistanceAfter(inputs.startingKpointsDistance, config.scaleKpointsDistance, iteration)
        && currentGapThreshold == ThresholdAfter(inputs.startingGapThreshold, config.scaleGapThreshold,
          config.minGapThreshold, iteration)
        && PassesRecorded(jobs, inputs, config, foundCrossings, grids')
      ensures status == Running ==>
        doLoop == (old(doLoop) && |foundCrossings[iteration - 1].pinned| + |foundCrossings[iteration - 1].found| != 0)
    {
      ghost var before, runs, distance, threshold, loop := foundCrossings, nscfRuns, currentKpointsDistance, currentGapThreshold, doLoop;
      Iterate(jobs);
      grids' := grids + [currentKpoints];
      if status == Running {
        PassRecorded(jobs, inputs, config, before, grids, foundCrossings, runs, nscfRuns, currentKpoints,
          distance, threshold, currentKpointsDistance, currentGapThreshold, loop, doLoop);
        assert iteration - 1 == |before|;
      }
    }

    /** One pass of the loop body: setup_grid, run_nscf, analyze_bands, stepper. */
    method Iterate(jobs: Jobs)
      requires status == Running && iteration == |foundCrossings| == |nscfRuns|
      modifies this
      ensures config == old(config) && iteration == old(iteration) + 1
      ensures status == Running || status.Excepted?
      ensures status == Running ==>
        iteration == |foundCrossings| == |nscfRuns|
        && OnePass(jobs, inputs, config, old(foundCrossings), foundCrossings, old(nscfRuns), nscfRuns, currentKpoints,
          old(currentKpointsDistance), old(currentGapThreshold), currentKpointsDistance, currentGapThreshold,
          old(doLoop), doLoop)
    {
      SetupGrid();
      RunNscf(jobs.nscf(iteration, currentKpoints));
      AnalyzeBands();
      if status != Running {
        return;
      }
      Stepper();
    }

    /**
     * The refinement loop and then `results`, from the state `setup_nscf_loop`
     * leaves; `exhausted` says the loop was cut off after `fuel` iterations
     * with its condition still true, and `results` was not reached.
     */
    method LoopThenResults(jobs: Jobs, fuel: nat) returns (exhausted: bool, ghost grids: seq<KpointsData>)
      requires status == Running && iteration == 0 && foundCrossings == [] && nscfRuns == [] && doLoop
      requires currentKpointsDistance == inputs.startingKpointsDistance
      requires currentGapThreshold == inputs.startingGapThreshold
      requires config.minKpointsDistance == inputs.minKpointsDistance && config.scaleKpointsDistance == inputs.scaleKpointsDistance
      modifies this
      ensures config == old(config) && iteration <= fuel
      ensures exhausted ==> status == Running && iteration == fuel
      ensures !exhausted ==> status != Running
      ensures status.Failed? ==> status.exitCode in {ERROR_CANT_PINPOINT_LOWGAP_ZONE, ERROR_MAXIMUM_ITERATIONS_EXCEEDED}
      ensures status.Succeeded? ==>
        0 < iteration == |foundCrossings|
        && status.crossings == MergedFound(foundCrossings) && StrictlySorted(status.crossings)
        && PassesRecorded(jobs, inputs, config, foundCrossings, grids)
      ensures inputs.startingKpointsDistance == 0.05 && inputs.scaleKpointsDistance == 0.05 && inputs.minKpointsDistance == 0.0001
        ==> status != Failed(ERROR_CANT_PINPOINT_LOWGAP_ZONE)
      ensures inputs.scaleKpointsDistance > 1.0 && inputs.minKpointsDistance > 0.0
        && fuel >= StepsToFloor(inputs.startingKpointsDistance, inputs.scaleKpointsDistance, inputs.minKpointsDistance)
        ==> !exhausted
    {
      var start, scale, min := inputs.startingKpointsDistance, inputs.scaleKpointsDistance, inputs.minKpointsDistance;
      exhausted := false;
      grids := RefinementLoop(jobs, fuel);
      if status == Running && ShouldFindZeroGap() {
        if scale > 1.0 && min > 0.0 && fuel >= StepsToFloor(start, scale, min) {
          FloorReached(start, scale, min, iteration);
        }
        exhausted := true;
      } else if status == Running {
        if start == 0.05 && scale == 0.05 && min == 0.0001 && iteration > 0 {
          DistanceGrows(start, scale, iteration);
        }
        Results();
      }
    }

    /**
     * `results`: the last nscf run must exist (no iteration at all raises),
     * then the merged crossings decide the outcome.
     */
    method Results()
      requires status == Running
      modifies this
      ensures nscfRuns == [] ==> status == Excepted(MissingContextAttribute)
      ensures nscfRuns != [] ==> status == DecideResults(currentKpointsDistance, config.minKpointsDistance, doLoop, MergedFound(foundCrossings))
      ensures currentStructure == old(currentStructure) && config == old(config) && iteration == old(iteration)
      ensures foundCrossings == old(foundCrossings) && nscfRuns == old(nscfRuns) && currentKpoints == old(currentKpoints)
      ensures currentKpointsDistance == old(currentKpointsDistance) && currentGapThreshold == old(currentGapThreshold)
      ensures doLoop == old(doLoop)
    {
      if nscfRuns == [] {
        status := Excepted(MissingContextAttribute);
        return;
      }
      var results := foundCrossings;
      var founds := seq(|results|, n requires 0 <= n < |results| => results[n].found);
      var crossings := MergeCrossingResults(founds);
      status := DecideResults(currentKpointsDistance, config.minKpointsDistance, doLoop, crossings);
    }
  }

  /**
   * What `analyze_bands` makes of an nscf run: the classification of its
   * bands, or the reason it raises.
   */
  function Analysis(run: NscfOutcome, config: LoopConfig, threshold: real): (a: Result<GapPoints, Exception>)
    ensures run.outputBand.None? ==> a == Err(MissingOutputBand)
    ensures run.outputBand.Some? ==>
      (a.Err? <==> !ValidIndex(config.vb, run.outputBand.value.nbands) || !ValidIndex(config.cb, run.outputBand.value.nbands))
    ensures run.outputBand.Some? && a.Ok? ==>
      Classify(run.outputBand.value, config.vb, config.cb, threshold, config.minGapThreshold) == Ok(a.value)
  {
    match run.outputBand
    case None => Err(MissingOutputBand)
    case Some(bands) =>
      match Classify(bands, config.vb, config.cb, threshold, config.minGapThreshold)
      case Ok(points) => Ok(points)
      case Err(e) => Err(BandFailure(e))
  }

  /**
   * What `analyze_bands` makes of the nscf job of iteration k on a set of
   * k-points, at the gap threshold after k steps.
   */
  ghost function PassAnalysis(jobs: Jobs, inputs: Inputs, config: LoopConfig): (nat, KpointsData) -> Result<GapPoints, Exception>
    requires config.scaleGapThreshold != 0.0
  {
    (k: nat, grid: KpointsData) =>
      Analysis(jobs.nscf(k, grid), config,
        ThresholdAfter(inputs.startingGapThreshold, config.scaleGapThreshold, config.minGapThreshold, k))
  }

  /** Pass k's result is what `analyze` makes of pass k on `grids[k]`. */
  ghost predicate Classified(analyze: (nat, KpointsData) -> Result<GapPoints, Exception>,
    results: seq<GapPoints>, grids: seq<KpointsData>)
  {
    |results| == |grids| && forall k {:trigger analyze(k, grids[k])} :: 0 <= k < |results| ==> analyze(k, grids[k]) == Ok(results[k])
  }

  /** The k-points `setup_grid` gives pass k > 0, around pass k - 1's pinned points. */
  ghost function PassGrid(inputs: Inputs, config: LoopConfig, previous: seq<Vec3>, k: nat): KpointsData
    requires config.scaleKpointsDistance != 0.0
  {
    var d := DistanceAfter(inputs.startingKpointsDistance, config.scaleKpointsDistance, k);
    Points(Grid.CubicGridIntended(previous, Grid.OffsetGrid(config.dim, d), d))
  }

  /**
   * Pass 0 ran on the starting k-points, pass k > 0 on the intended cubic
   * grid around pass k - 1's pinned points at the spacing after k steps.
   */
  ghost predicate GridsChosen(inputs: Inputs, config: LoopConfig, results: seq<GapPoints>, grids: seq<KpointsData>) {
    config.scaleKpointsDistance != 0.0 && |results| == |grids|
    && (|grids| > 0 ==> grids[0] == inputs.startingKpoints)
    && forall k {:trigger grids[k]} :: 0 < k < |grids| ==> grids[k] == PassGrid(inputs, config, results[k - 1].pinned, k)
  }

  /** Every pass so far, with its k-points and its classification. */
  ghost predicate PassesRecorded(jobs: Jobs, inputs: Inputs, config: LoopConfig, results: seq<GapPoints>, grids: seq<KpointsData>) {
    config.scaleGapThreshold != 0.0
    && Classified(PassAnalysis(jobs, inputs, config), results, grids) && GridsChosen(inputs, config, results, grids)
  }

  /** A further classified pass extends the record of the earlier ones. */
  lemma ClassifiedExtend(analyze: (nat, KpointsData) -> Result<GapPoints, Exception>,
    results: seq<GapPoints>, grids: seq<KpointsData>, result: GapPoints, grid: KpointsData)
    requires Classified(analyze, results, grids)
    requires analyze(|results|, grid) == Ok(result)
    ensures Classified(analyze, results + [result], grids + [grid])
  {
    var rs, gs := results + [result], grids + [grid];
    forall k | 0 <= k < |rs|
      ensures analyze(k, gs[k]) == Ok(rs[k])
    {
      if k < |results| {
        assert gs[k] == grids[k] && rs[k] == results[k];
      }
    }
  }

  /** A further pass on the grid `setup_grid` chose extends the record of the earlier ones. */
  lemma GridsExtend(inputs: Inputs, config: LoopConfig, results: seq<GapPoints>, grids: seq<KpointsData>,
    result: GapPoints, grid: KpointsData)
    requires config.scaleKpointsDistance != 0.0 && |results| == |grids|
    requires GridsChosen(inputs, config, results, grids)
    requires |results| == 0 ==> grid == inputs.startingKpoints
    requires |results| > 0 ==> grid == PassGrid(inputs, config, results[|results| - 1].pinned, |results|)
    ensures GridsChosen(inputs, config, results + [result], grids + [grid])
  {
    var rs, gs := results + [result], grids + [grid];
    forall k | 0 < k < |gs|
      ensures gs[k] == PassGrid(inputs, config, rs[k - 1].pinned, k)
    {
      assert rs[k - 1] == results[k - 1];
      if k < |grids| {
        assert gs[k] == grids[k];
      }
    }
  }

  /** One more step of the spacing and the threshold after n steps gives their values after n + 1. */
  lemma StepsAfter(inputs: Inputs, config: LoopConfig, n: nat, distance: real, threshold: real,
    distance': real, threshold': real)
    requires config.scaleKpointsDistance != 0.0 && config.scaleGapThreshold != 0.0
    requires n == 0 ==> distance == inputs.startingKpointsDistance && threshold == inputs.startingGapThreshold
    requires n > 0 ==>
      distance == DistanceAfter(inputs.startingKpointsDistance, config.scaleKpointsDistance, n)
      && threshold == ThresholdAfter(inputs.startingGapThreshold, config.scaleGapThreshold, config.minGapThreshold, n)
    requires distance' == distance / config.scaleKpointsDistance
    requires threshold' == NextThreshold(threshold, config.scaleGapThreshold, config.minGapThreshold)
    ensures threshold == ThresholdAfter(inputs.startingGapThreshold, config.scaleGapThreshold, config.minGapThreshold, n)
    ensures distance' == DistanceAfter(inputs.startingKpointsDistance, config.scaleKpointsDistance, n + 1)
    ensures threshold' == ThresholdAfter(inputs.startingGapThreshold, config.scaleGapThreshold, config.minGapThreshold, n + 1)
  {
  }

  /** The classification `analyze_bands` appended for pass k is that pass's analysis. */
  lemma AnalysisOfPass(jobs: Jobs, inputs: Inputs, config: LoopConfig, k: nat, grid: KpointsData,
    run: NscfOutcome, threshold: real, result: GapPoints)
    requires config.scaleGapThreshold != 0.0
    requires run == jobs.nscf(k, grid) && Analysis(run, config, threshold) == Ok(result)
    requires threshold == ThresholdAfter(inputs.startingGapThreshold, config.scaleGapThreshold, config.minGapThreshold, k)
    ensures PassAnalysis(jobs, inputs, config)(k, grid) == Ok(result)
  {
  }

  /** The k-points `setup_grid` chose for pass k > 0 are that pass's grid. */
  lemma GridOfPass(inputs: Inputs, config: LoopConfig, previous: seq<Vec3>, k: nat, distance: real, grid: KpointsData)
    requires config.scaleKpointsDistance != 0.0
    requires distance == DistanceAfter(inputs.startingKpointsDistance, config.scaleKpointsDistance, k)
    requires grid == Points(Grid.CubicGridIntended(previous, Grid.OffsetGrid(config.dim, distance), distance))
    ensures grid == PassGrid(inputs, config, previous, k)
  {
  }

  /** The pass just run, once its result is known, extends the record. */
  lemma RecordNext(jobs: Jobs, inputs: Inputs, config: LoopConfig, before: seq<GapPoints>, grids: seq<KpointsData>,
    results: seq<GapPoints>, grid: KpointsData)
    requires config.scaleKpointsDistance != 0.0 && config.scaleGapThreshold != 0.0
    requires |before| == |grids| && |results| == |before| + 1 && results[..|before|] == before
    requires |before| == 0 || PassesRecorded(jobs, inputs, config, before, grids)
    requires PassAnalysis(jobs, inputs, config)(|before|, grid) == Ok(results[|before|])
    requires |before| == 0 ==> grid == inputs.startingKpoints
    requires |before| > 0 ==> grid == PassGrid(inputs, config, results[|before| - 1].pinned, |before|)
    ensures PassesRecorded(jobs, inputs, config, results, grids + [grid])
  {
    var result := results[|before|];
    assert results == before + [result];
    ClassifiedExtend(PassAnalysis(jobs, inputs, config), before, grids, result, grid);
    if |before| > 0 {
      assert results[|before| - 1] == before[|before| - 1];
    }
    GridsExtend(inputs, config, before, grids, result, grid);
  }

  /**
   * What one pass of the loop body did, from the results, runs, spacing,
   * threshold and loop flag before it to those after it: the earlier runs and
   * results are kept; the new run is the nscf job of this pass on `grid`, the
   * k-points `setup_grid` chose (the starting k-points on the first pass,
   * otherwise the intended cubic grid around the previous result's pinned
   * points); the new result is that run's analysis at the threshold before the
   * step; the flag stays set iff the new result holds a pinned or found point;
   * the spacing is divided once by its scale and the threshold takes one step.
   */
  ghost predicate OnePass(jobs: Jobs, inputs: Inputs, config: LoopConfig,
    before: seq<GapPoints>, results: seq<GapPoints>, runsBefore: seq<NscfOutcome>, runs: seq<NscfOutcome>,
    grid: KpointsData, distance: real, threshold: real, distance': real, threshold': real, doLoop: bool, doLoop': bool)
  {
    var k := |before|;
    config.scaleKpointsDistance != 0.0 && config.scaleGapThreshold != 0.0
    && |runsBefore| == k && |results| == k + 1 && |runs| == k + 1
    && results[..k] == before && runs[..k] == runsBefore
    && (k == 0 ==> grid == inputs.startingKpoints)
    && (k > 0 ==> grid == Points(Grid.CubicGridIntended(before[k - 1].pinned, Grid.OffsetGrid(config.dim, distance), distance)))
    && runs[k] == jobs.nscf(k, grid)
    && Analysis(runs[k], config, threshold) == Ok(results[k])
    && doLoop' == (doLoop && |results[k].pinned| + |results[k].found| != 0)
    && distance' == distance / config.scaleKpointsDistance
    && threshold' == NextThreshold(threshold, config.scaleGapThreshold, config.minGapThreshold)
  }

  /**
   * A pass that starts from the spacing and threshold after k steps and from
   * the record of the k earlier passes ends with both after k + 1 steps and
   * with the record of k + 1 passes.
   */
  lemma PassRecorded(jobs: Jobs, inputs: Inputs, config: LoopConfig, before: seq<GapPoints>, grids: seq<KpointsData>,
    results: seq<GapPoints>, runsBefore: seq<NscfOutcome>, runs: seq<NscfOutcome>, grid: KpointsData,
    distance: real, threshold: real, distance': real, threshold': real, doLoop: bool, doLoop': bool)
    requires |before| == |grids|
    requires |before| == 0 ==> distance == inputs.startingKpointsDistance && threshold == inputs.startingGapThreshold
    requires |before| > 0 ==>
      config.scaleKpointsDistance != 0.0 && config.scaleGapThreshold != 0.0
      && distance == DistanceAfter(inputs.startingKpointsDistance, config.scaleKpointsDistance, |before|)
      && threshold == ThresholdAfter(inputs.startingGapThreshold, config.scaleGapThreshold, config.minGapThreshold, |before|)
      && PassesRecorded(jobs, inputs, config, before, grids)
    requires OnePass(jobs, inputs, config, before, results, runsBefore, runs, grid, distance, threshold, distance', threshold', doLoop, doLoop')
    ensures config.scaleKpointsDistance != 0.0 && config.scaleGapThreshold != 0.0 && |results| == |before| + 1
    ensures distance' == DistanceAfter(inputs.startingKpointsDistance, config.scaleKpointsDistance, |before| + 1)
    ensures threshold' == ThresholdAfter(inputs.startingGapThreshold, config.scaleGapThreshold, config.minGapThreshold, |before| + 1)
    ensures PassesRecorded(jobs, inputs, config, results, grids + [grid])
    ensures doLoop' == (doLoop && |results[|before|].pinned| + |results[|before|].found| != 0)
  {
    var k := |before|;
    StepsAfter(inputs, config, k, distance, threshold, distance', threshold');
    AnalysisOfPass(jobs, inputs, config, k, grid, runs[k], threshold, results[k]);
    if k > 0 {
      assert results[k - 1] == before[k - 1];
      GridOfPass(inputs, config, results[k - 1].pinned, k, distance, grid);
    }
    RecordNext(jobs, inputs, config, before, grids, results, grid);
  }

  /** How a run of the outline ends: with the workchain's final status, or out of fuel. */
  datatype Outcome = Completed(status: Status) | FuelExhausted

  /** The structure the scf job runs on: the relaxed one when a relax ran and succeeded. */
  function ScfStructure(inputs: Inputs, jobs: Jobs): Structure {
    if inputs.relax && jobs.relax(inputs.structure).finishedOk then jobs.relax(inputs.structure).outputStructure
    else inputs.structure
  }

  /** The relax ran and failed. */
  predicate RelaxFails(inputs: Inputs, jobs: Jobs) {
    inputs.relax && !jobs.relax(inputs.structure).finishedOk
  }

  /**
   * The outline: setup, optional relax, scf, loop setup, at most `fuel`
   * iterations of setup_grid, run_nscf, analyze_bands and stepper while
   * `should_find_zero_gap` holds, then results.
   */
  method RunWorkChain(inputs: Inputs, jobs: Jobs, fuel: nat)
    returns (outcome: Outcome, iterations: nat, ghost results: seq<GapPoints>, ghost grids: seq<KpointsData>)
    ensures outcome == Completed(Failed(ERROR_SUB_PROCESS_FAILED_RELAX)) <==> RelaxFails(inputs, jobs)
    ensures outcome == Completed(Failed(ERROR_SUB_PROCESS_FAILED_SCF))
      <==> !RelaxFails(inputs, jobs) && !jobs.scf(ScfStructure(inputs, jobs)).finishedOk
    ensures outcome != Completed(Failed(ERROR_SUB_PROCESS_FAILED_NSCF))
    ensures outcome.Completed? && outcome.status.Failed? ==>
      outcome.status.exitCode in {ERROR_SUB_PROCESS_FAILED_RELAX, ERROR_SUB_PROCESS_FAILED_SCF,
        ERROR_CANT_PINPOINT_LOWGAP_ZONE, ERROR_MAXIMUM_ITERATIONS_EXCEEDED}
    ensures outcome.Completed? && outcome.status.Succeeded? ==> StrictlySorted(outcome.status.crossings)
    ensures outcome.Completed? && outcome.status.Succeeded? ==>
      var scf := jobs.scf(ScfStructure(inputs, jobs));
      inputs.startingKpoints.Mesh? && 0 < iterations == |results|
      && outcome.status.crossings == MergedFound(results)
      && PassesRecorded(jobs, inputs, ConfigOf(inputs, scf), results, grids)
    ensures !RelaxFails(inputs, jobs) && jobs.scf(ScfStructure(inputs, jobs)).finishedOk && inputs.startingKpoints.Points?
      ==> outcome == Completed(Excepted(MeshMissing))
    ensures inputs.startingKpointsDistance == 0.05 && inputs.scaleKpointsDistance == 0.05 && inputs.minKpointsDistance == 0.0001
      ==> outcome != Completed(Failed(ERROR_CANT_PINPOINT_LOWGAP_ZONE))
    ensures iterations <= fuel
    ensures outcome.FuelExhausted? ==> iterations == fuel
    ensures inputs.scaleKpointsDistance > 1.0 && inputs.minKpointsDistance > 0.0
      && fuel >= StepsToFloor(inputs.startingKpointsDistance, inputs.scaleKpointsDistance, inputs.minKpointsDistance)
      ==> !outcome.FuelExhausted?
  {
    iterations, results, grids := 0, [], [];
    var wc := new FindCrossingsWorkChain(inputs);
    var exhausted := false;
    if wc.ShouldDoRelax() {
      wc.InspectRelax(jobs.relax(wc.currentStructure));
    }
    if wc.status == Running {
      assert wc.currentStructure == ScfStructure(inputs, jobs);
      var scf := jobs.scf(wc.currentStructure);
      wc.InspectScf(scf);
      if wc.status == Running {
        wc.SetupNscfLoop(scf);
      }
    }
    if wc.status == Running {
      exhausted, grids := wc.LoopThenResults(jobs, fuel);
      iterations, results := wc.iteration, wc.foundCrossings;
    }
    outcome := if exhausted then FuelExhausted else Completed(wc.status);
  }
}
