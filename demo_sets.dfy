/**
 * `create_n_fewshot_demo_sets` (src/optiglot/utils.py): per predictor of the student,
 * a list of candidate demo sets, one per candidate set: zero-shot, labels only,
 * bootstrapped on the trainset as given, then bootstrapped on shuffled copies of it
 * with a drawn bootstrap size.
 */
module DemoSets {
  import opened Wrappers
  import opened Lists
  import opened Models
  import opened Rand
  import opened Evaluation
  import opened Vanilla
  import opened BootstrapRules
  import opened BootstrapLoop
  import opened Bootstrap

  /** The keyword arguments that every candidate set is built with. */
  datatype Settings = Settings(
    maxLabeledDemos: int,
    maxBootstrappedDemos: int,
    metricThreshold: Option<real>,
    teacherLm: Option<LM>,
    maxRounds: int,
    labeledSample: bool,
    minNumSamples: int,
    includeNonBootstrapped: bool)

  /** The four branches of the loop body. */
  datatype Strategy = ZeroShot | LabelsOnly | UnshuffledBootstrap | ShuffledBootstrap

  /**
   * The branch that set number `setIdx` (counted from -3) takes. The first two
   * branches have extra conditions; a set that fails them falls through to the
   * shuffled branch, not to the next special set.
   */
  function StrategyOf(setIdx: int, cfg: Settings): (s: Strategy)
    ensures s == ZeroShot <==> setIdx == -3 && cfg.includeNonBootstrapped
    ensures s == LabelsOnly <==> setIdx == -2 && 0 < cfg.maxLabeledDemos && cfg.includeNonBootstrapped
    ensures s == UnshuffledBootstrap <==> setIdx == -1
    ensures s == ShuffledBootstrap <==>
              (!(setIdx == -3 && cfg.includeNonBootstrapped) &&
               !(setIdx == -2 && 0 < cfg.maxLabeledDemos && cfg.includeNonBootstrapped) &&
               setIdx != -1)
  {
    if setIdx == -3 && cfg.includeNonBootstrapped then ZeroShot
    else if setIdx == -2 && cfg.maxLabeledDemos > 0 && cfg.includeNonBootstrapped then LabelsOnly
    else if setIdx == -1 then UnshuffledBootstrap
    else ShuffledBootstrap
  }

  /**
   * What a compiled candidate set satisfies: the student's names in order; the
   * zero-shot set is the reset student, the labels-only set the labelled compile of
   * the trainset; a bootstrapped set was compiled with bootstrap size `size`, the
   * configured one or, when shuffled, one drawn from [min_num_samples,
   * max_bootstrapped_demos], and with a non-negative size no predictor holds more
   * than max(size, max_labeled_demos) demos.
   */
  ghost predicate Candidate(p: Program, setIdx: int, size: int, student: Program, trainset: seq<Dict>, cfg: Settings,
                            draws: nat -> nat)
    requires student.WellFormed()
  {
    p.order == student.order && |p.predictors| == |student.order| &&
    match StrategyOf(setIdx, cfg)
    case ZeroShot => p == student.Reset()
    case LabelsOnly => p == Labeled(student, trainset, cfg.maxLabeledDemos, cfg.labeledSample, draws)
    case UnshuffledBootstrap =>
      size == cfg.maxBootstrappedDemos && DemosAtMost(p, size, cfg.maxLabeledDemos)
    case ShuffledBootstrap =>
      cfg.minNumSamples <= size <= cfg.maxBootstrappedDemos && DemosAtMost(p, size, cfg.maxLabeledDemos)
  }

  /**
   * Whether set number `setIdx` raises: a bootstrapped set on an empty trainset
   * (no example was tried), or a shuffled set whose size range is empty.
   */
  predicate Fails(setIdx: int, trainset: seq<Dict>, cfg: Settings) {
    match StrategyOf(setIdx, cfg)
    case ZeroShot => false
    case LabelsOnly => false
    case UnshuffledBootstrap => trainset == []
    case ShuffledBootstrap => cfg.maxBootstrappedDemos < cfg.minNumSamples || trainset == []
  }

  /** Column t of every predictor's list holds that predictor's demos in the program compiled for set t. */
  ghost predicate Columns(result: map<nat, seq<seq<Dict>>>, programs: seq<Program>) {
    forall i, t :: i in result && 0 <= t < |programs| && t < |result[i]| && i < |programs[t].predictors| ==>
      result[i][t] == programs[t].predictors[i].demos
  }

  /** Appending one compiled program's demos as a new column keeps every earlier column in place. */
  lemma ColumnsGrow(candidates: map<nat, seq<seq<Dict>>>, programs: seq<Program>, p: Program,
                    next: map<nat, seq<seq<Dict>>>)
    requires Columns(candidates, programs)
    requires forall i :: i in candidates ==> |candidates[i]| == |programs| && i < |p.predictors|
    requires next.Keys == candidates.Keys
    requires forall i :: i in next ==> next[i] == candidates[i] + [p.predictors[i].demos]
    ensures Columns(next, programs + [p])
  {
    forall i, t | i in next && 0 <= t < |programs| + 1 && t < |next[i]| && i < |(programs + [p])[t].predictors|
      ensures next[i][t] == (programs + [p])[t].predictors[i].demos
    {
      if t < |programs| {
        assert next[i][t] == candidates[i][t];
      }
    }
  }

  /** With a non-negative bootstrap size, every predictor holds at most max(size, max_labeled_demos) demos. */
  ghost predicate DemosAtMost(p: Program, size: int, maxLabeled: int) {
    0 <= size ==> forall i :: 0 <= i < |p.predictors| ==> |p.predictors[i].demos| <= Max(size, maxLabeled)
  }

  /**
   * A `BootstrapFewShot` with the given bootstrap size and the defaults for the
   * rest (no teacher settings, no error budget), compiled on the student; the value
   * of the compiled program. Every request it sends runs the teacher, stripped of the
   * example, on one example of the trainset it was given.
   */
  method CompileBootstrapped(student: Module, trainset: seq<Dict>, valset: Option<seq<Dict>>, size: int, cfg: Settings,
                             evaluator: Evaluator, source: Source, tieBreak: seq<Dict> -> TieBreak)
    returns (r: Result<Program, Error>)
    requires student.Valid()
    modifies evaluator
    ensures student.Value() == old(student.Value())
    ensures trainset == [] ==> r == Failure(UnboundLocal("example_idx"))
    ensures r.Failure? <==> trainset == []
    ensures r.Success? ==> r.value.order == student.order && |r.value.predictors| == |student.order| &&
                           DemosAtMost(r.value, size, cfg.maxLabeledDemos)
    ensures SentSince(evaluator.log, |old(evaluator.log)|, TeacherProgram(student.Value(), trainset, cfg.maxLabeledDemos, source(0)),
                      trainset, cfg.maxRounds, cfg.teacherLm)
  {
    var teleprompter := new BootstrapFewShot(cfg.metricThreshold, None, size, cfg.maxLabeledDemos, cfg.maxRounds, None,
                                             cfg.teacherLm, evaluator, source, tieBreak);
    ghost var bootstrapped;
    var compiled;
    compiled, bootstrapped := teleprompter.Compile(student, trainset, valset);
    if compiled.Failure? {
      r := Failure(compiled.error);
    } else {
      if 0 <= size {
        TrainedDemoBound(student.Value().Reset(), student.order, teleprompter.name2traces, teleprompter.validation, size,
                         cfg.maxLabeledDemos, source(0));
      }
      r := Success(compiled.value.Value());
    }
  }

  /**
   * One iteration of the loop, up to the compiled program: the branch of `StrategyOf`
   * builds it. Only the shuffled branch draws from the generator: a shuffle of a copy
   * of the trainset, then `randint(min_num_samples, max_bootstrapped_demos)`, which
   * raises ValueError on an empty range.
   */
  method CandidateProgram(student: Module, setIdx: int, trainset: seq<Dict>, valset: Option<seq<Dict>>, cfg: Settings,
                          evaluator: Evaluator, rng: Random, source: Source, tieBreak: seq<Dict> -> TieBreak)
    returns (r: Result<Program, Error>, size: int)
    requires student.Valid()
    modifies evaluator, rng
    ensures student.Value() == old(student.Value())
    ensures r.Success? ==> Candidate(r.value, setIdx, size, student.Value(), trainset, cfg, source(0))
    ensures StrategyOf(setIdx, cfg) != ShuffledBootstrap ==> rng.used == old(rng.used)
    ensures StrategyOf(setIdx, cfg) == UnshuffledBootstrap && trainset == [] ==> r == Failure(UnboundLocal("example_idx"))
    ensures StrategyOf(setIdx, cfg) == ShuffledBootstrap && cfg.maxBootstrappedDemos < cfg.minNumSamples ==>
              r.Failure? && r.error.ValueError?
    ensures r.Failure? <==> Fails(setIdx, trainset, cfg)
  {
    size := 0;
    match StrategyOf(setIdx, cfg)
    case ZeroShot =>
      var program := student.ResetCopy();
      r := Success(program.Value());
    case LabelsOnly =>
      var teleprompter := new LabeledFewShot(cfg.maxLabeledDemos, source);
      var compiled := teleprompter.Compile(student, trainset, valset, cfg.labeledSample);
      assert compiled.Success?;
      r := Success(compiled.value.Value());
    case UnshuffledBootstrap =>
      size := cfg.maxBootstrappedDemos;
      r := CompileBootstrapped(student, trainset, valset, size, cfg, evaluator, source, tieBreak);
    case ShuffledBootstrap =>
      var trainsetCopy := rng.Shuffle(trainset);
      var drawn := rng.RandInt(cfg.minNumSamples, cfg.maxBootstrappedDemos);
      if drawn.Failure? {
        r := Failure(drawn.error);
      } else {
        size := drawn.value;
        r := CompileBootstrapped(student, trainsetCopy, valset, size, cfg, evaluator, source, tieBreak);
      }
  }

  /** `demo_candidates = {i: [] for i in range(len(student.predictors()))}`. */
  method NoColumns(n: nat) returns (candidates: map<nat, seq<seq<Dict>>>)
    ensures forall j: nat :: j in candidates <==> j < n
    ensures forall j :: j in candidates ==> candidates[j] == []
  {
    candidates := map[];
    for i := 0 to n
      invariant forall j: nat :: j in candidates <==> j < i
      invariant forall j :: j in candidates ==> candidates[j] == []
    {
      candidates := candidates[i := []];
    }
  }

  /** `demo_candidates[i].append(...)` for every predictor i: the compiled set becomes one more column. */
  method AddColumn(candidates: map<nat, seq<seq<Dict>>>, p: Program) returns (next: map<nat, seq<seq<Dict>>>)
    requires forall i :: i in candidates ==> i < |p.predictors|
    ensures next.Keys == candidates.Keys
    ensures forall i :: i in next ==> next[i] == candidates[i] + [p.predictors[i].demos]
  {
    next := candidates;
    for i := 0 to |p.predictors|
      invariant next.Keys == candidates.Keys
      invariant forall j :: j in next && j < i ==> next[j] == candidates[j] + [p.predictors[j].demos]
      invariant forall j :: j in next && i <= j ==> next[j] == candidates[j]
    {
      if i in next {
        next := next[i := next[i] + [p.predictors[i].demos]];
      }
    }
  }

  /**
   * `create_n_fewshot_demo_sets`: `num_candidate_sets` counts the three special sets,
   * so the loop runs over set numbers -3 .. num_candidate_sets - 4 and every
   * predictor's list gets max(0, num_candidate_sets) entries. The generator is the
   * caller's, or one seeded with `seed`. A compile that raises ends the whole call.
   * The `teacher` argument only reaches `**kwargs` of `compile`, so it is not modelled.
   */
  method CreateNFewshotDemoSets(student: Module, numCandidateSets: int, trainset: seq<Dict>, cfg: Settings,
                                evaluator: Evaluator, valset: Option<seq<Dict>>, seed: int, rng: Option<Random>,
                                source: Source, tieBreak: seq<Dict> -> TieBreak)
    returns (r: Result<map<nat, seq<seq<Dict>>>, Error>, ghost programs: seq<Program>, ghost sizes: seq<int>)
    requires student.Valid()
    modifies evaluator, if rng.Some? then {rng.value} else {}
    ensures student.Value() == old(student.Value())
    ensures r.Success? ==> (forall i: nat :: i in r.value <==> i < |student.order|) &&
                           forall i :: i in r.value ==> |r.value[i]| == Max(0, numCandidateSets)
    ensures r.Success? ==>
              |programs| == |sizes| == Max(0, numCandidateSets) &&
              (forall t :: 0 <= t < |programs| ==>
                 Candidate(programs[t], t - 3, sizes[t], student.Value(), trainset, cfg, source(0))) &&
              Columns(r.value, programs)
    ensures 3 <= numCandidateSets && trainset == [] ==> r.Failure?
    ensures r.Failure? <==> exists k :: -3 <= k < numCandidateSets - 3 && Fails(k, trainset, cfg)
  {
    var candidates := NoColumns(|student.order|);
    var gen: Random;
    if rng.Some? {
      gen := rng.value;
    } else {
      gen := new Random(source, seed);
    }
    programs, sizes := [], [];
    ghost var caller := student.Value();
    for t := 0 to Max(0, numCandidateSets)
      invariant student.Value() == caller
      invariant (forall i: nat :: i in candidates <==> i < |student.order|)
      invariant |programs| == |sizes| == t
      invariant forall u :: 0 <= u < t ==> Candidate(programs[u], u - 3, sizes[u], caller, trainset, cfg, source(0))
      invariant forall i :: i in candidates ==> |candidates[i]| == t
      invariant Columns(candidates, programs)
      invariant trainset == [] ==> t <= 2
      invariant forall k :: -3 <= k < t - 3 ==> !Fails(k, trainset, cfg)
    {
      var program, size := CandidateProgram(student, t - 3, trainset, valset, cfg, evaluator, gen, source, tieBreak);
      if program.Failure? {
        assert Fails(t - 3, trainset, cfg);
        return Failure(program.error), programs, sizes;
      }
      var next := AddColumn(candidates, program.value);
      ColumnsGrow(candidates, programs, program.value, next);
      candidates, programs, sizes := next, programs + [program.value], sizes + [size];
    }
    r := Success(candidates);
  }

  /** With the non-bootstrapped sets included, every predictor's first candidate is the empty demo list. */
  lemma ZeroShotFirst(student: Program, numCandidateSets: int, trainset: seq<Dict>, cfg: Settings, draws: nat -> nat,
                      result: map<nat, seq<seq<Dict>>>, programs: seq<Program>, sizes: seq<int>)
    requires student.WellFormed() && cfg.includeNonBootstrapped && 1 <= numCandidateSets
    requires |programs| == |sizes| == numCandidateSets
    requires forall t :: 0 <= t < |programs| ==> Candidate(programs[t], t - 3, sizes[t], student, trainset, cfg, draws)
    requires forall i :: i in result ==> i < |student.order| && |result[i]| == numCandidateSets
    requires Columns(result, programs)
    ensures forall i :: i in result ==> result[i][0] == []
  {
    assert Candidate(programs[0], -3, sizes[0], student, trainset, cfg, draws);
  }

  /** The second candidate, when the labels-only set is built, is the labelled compile's demos for that predictor. */
  lemma LabelsOnlySecond(student: Program, numCandidateSets: int, trainset: seq<Dict>, cfg: Settings, draws: nat -> nat,
                         result: map<nat, seq<seq<Dict>>>, programs: seq<Program>, sizes: seq<int>)
    requires student.WellFormed() && cfg.includeNonBootstrapped && 0 < cfg.maxLabeledDemos && 2 <= numCandidateSets
    requires |programs| == |sizes| == numCandidateSets
    requires forall t :: 0 <= t < |programs| ==> Candidate(programs[t], t - 3, sizes[t], student, trainset, cfg, draws)
    requires forall i :: i in result ==> i < |student.order| && |result[i]| == numCandidateSets
    requires Columns(result, programs)
    ensures forall i :: i in result ==> result[i][1] == LabeledDemos(trainset, cfg.maxLabeledDemos, cfg.labeledSample, draws, i)
  {
    assert Candidate(programs[1], -2, sizes[1], student, trainset, cfg, draws);
  }

  /** Every shuffled set that was built drew its size from [min_num_samples, max_bootstrapped_demos]; so there was such a size. */
  lemma ShuffledSizesInRange(student: Program, trainset: seq<Dict>, cfg: Settings, draws: nat -> nat,
                             programs: seq<Program>, sizes: seq<int>)
    requires student.WellFormed() && |programs| == |sizes|
    requires forall t :: 0 <= t < |programs| ==> Candidate(programs[t], t - 3, sizes[t], student, trainset, cfg, draws)
    ensures forall t :: 0 <= t < |programs| && StrategyOf(t - 3, cfg) == ShuffledBootstrap ==>
              cfg.minNumSamples <= sizes[t] <= cfg.maxBootstrappedDemos
  {
    forall t | 0 <= t < |programs| && StrategyOf(t - 3, cfg) == ShuffledBootstrap
      ensures cfg.minNumSamples <= sizes[t] <= cfg.maxBootstrappedDemos
    {
      assert Candidate(programs[t], t - 3, sizes[t], student, trainset, cfg, draws);
    }
  }
}
