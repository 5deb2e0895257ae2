/**
 * `BootstrapFewShot` (src/optiglot/optimizers/bootstrap.py): the teacher is run with
 * tracing on each training example, for up to `max_rounds` rounds, until
 * `max_bootstrapped_demos` examples have passed; the demos of the passing traces,
 * topped up with labelled examples from a shrinking validation pool, become the
 * demos of a reset copy of the student.
 */
module Bootstrap {
  import opened Wrappers
  import opened Lists
  import opened Models
  import opened Rand
  import opened Evaluation
  import opened Vanilla
  import opened BootstrapRules
  import opened BootstrapLoop

  /** The teacher copy of `_bootstrap_one_example`: a deep copy whose demos no longer contain the example. */
  method CopyWithout(m: Module, example: Dict) returns (c: Module)
    requires m.Valid()
    ensures fresh(c) && c.Valid() && c.order == m.order
    ensures forall i :: 0 <= i < |c.preds| ==> fresh(c.preds[i])
    ensures c.Value() == Strip(m.Value(), example)
  {
    c := m.DeepCopy();
    ghost var before := c.Value();
    var predictors := c.Predictors();
    for i := 0 to |predictors|
      invariant forall j :: 0 <= j < |predictors| ==>
                  predictors[j].signature == before.predictors[j].signature && predictors[j].lm == before.predictors[j].lm
      invariant forall j :: 0 <= j < i ==> predictors[j].demos == Without(before.predictors[j].demos, example)
      invariant forall j :: i <= j < |predictors| ==> predictors[j].demos == before.predictors[j].demos
    {
      assert forall j :: 0 <= j < |predictors| && j != i ==> predictors[j] != predictors[i];
      predictors[i].demos := Without(predictors[i].demos, example);
    }
    assert forall j :: 0 <= j < |predictors| ==> c.Value().predictors[j] == Strip(before, example).predictors[j];
  }

  /** The grouping loop of `_bootstrap_one_example`: the keys of `name2demos` in insertion order, and the dict. */
  method GroupTrace(trace: seq<TraceStep>) returns (names: seq<string>, groups: map<string, seq<Dict>>)
    ensures names == Keys(trace) && groups == Groups(trace)
  {
    names := [];
    groups := map[];
    for t := 0 to |trace|
      invariant names == Keys(trace[..t])
      invariant forall name :: name in groups <==> name in names
      invariant forall name :: name in groups ==> groups[name] == DemosFor(trace[..t], name)
    {
      var step := trace[t];
      assert trace[..t + 1][..t] == trace[..t];
      KeysMatchDemos(trace[..t]);
      if Truthy(step.prediction.output) {
        var demo := map["inputs" := Obj(step.inputs), "outputs" := step.prediction.output];
        if step.predictorName !in groups {
          names := names + [step.predictorName];
          groups := groups[step.predictorName := []];
        }
        groups := groups[step.predictorName := groups[step.predictorName] + [demo]];
      }
    }
    assert trace[..|trace|] == trace;
    KeysMatchDemos(trace);
  }

  /** One iteration of `_train`'s loop: the predictor's demos, and the sample that becomes the next `raw_demos`. */
  method TrainOne(p: Predict, name: string, traces: Traces, raw: seq<Dict>, maxBootstrapped: int, maxLabeled: int,
                  rng: Random, ghost sample: Sampler) returns (next: seq<Dict>)
    requires SamplerOf(sample, rng.draws)
    modifies p, rng
    ensures p.signature == old(p.signature) && p.lm == old(p.lm)
    ensures var augmented := Augmented(traces, name, maxBootstrapped);
            var size := SampleSize(maxLabeled, |augmented|, |raw|);
            next == sample(raw, size, old(rng.used)) && rng.used == old(rng.used) + size && p.demos == augmented + next
  {
    var augmented := Prefix(if name in traces then traces[name] else [], maxBootstrapped);
    var sampleSize := Max(0, Min(maxLabeled - |augmented|, |raw|));
    var drawn := rng.Sample(raw, sampleSize);
    assert drawn.Success?;
    next := drawn.value;
    p.demos := augmented + next;
  }

  /**
   * The loop of `_train`: predictor by predictor, its bootstrapped prefix and then a
   * sample of `raw_demos`, which becomes the `raw_demos` of the next predictor.
   */
  method FillFromPlan(c: Module, traces: Traces, validation: seq<Dict>, maxBootstrapped: int, maxLabeled: int,
                      rng: Random, ghost sample: Sampler)
    requires c.Valid() && rng.used == 0 && SamplerOf(sample, rng.draws) && SamplesOfSize(sample)
    modifies c.preds, rng
    ensures c.Value() == Trained(old(c.Value()), TrainPlan(c.order, traces, validation, maxBootstrapped, maxLabeled, sample, 0))
  {
    var predictors := c.Predictors();
    ghost var before := c.Value();
    ghost var plan := TrainPlan(c.order, traces, validation, maxBootstrapped, maxLabeled, sample, 0);
    var raw := validation;
    if 0 < |predictors| {
      TrainPlanStep(c.order, traces, validation, maxBootstrapped, maxLabeled, sample, 0, 0);
    }
    for i := 0 to |predictors|
      invariant i < |predictors| ==> raw == plan[i].pool && rng.used == plan[i].at
      invariant forall j :: 0 <= j < |predictors| ==>
                  predictors[j].Value() == if j < i then before.predictors[j].(demos := plan[j].Demos()) else before.predictors[j]
    {
      TrainPlanLink(c.order, traces, validation, maxBootstrapped, maxLabeled, sample, 0, i);
      assert forall j :: 0 <= j < |predictors| && j != i ==> predictors[j] != predictors[i];
      raw := TrainOne(predictors[i], c.order[i], traces, raw, maxBootstrapped, maxLabeled, rng, sample);
    }
    assert forall j :: 0 <= j < |predictors| ==> c.Value().predictors[j] == Trained(before, plan).predictors[j];
  }

  /** The shuffle at the end of `_bootstrap`: a generator seeded with 0 reorders the examples that did not pass. */
  method ShufflePool(trainset: seq<Dict>, bootstrapped: set<nat>, source: Source) returns (pool: seq<Dict>)
    ensures pool == ValidationPool(trainset, bootstrapped, source(0))
  {
    var rng := new Random(source, 0);
    pool := rng.Shuffle(Unbootstrapped(trainset, bootstrapped));
  }

  /**
   * The program of the teacher: the caller's program itself or, with a positive
   * `max_labeled_demos`, its labelled compile (sampling, generator seeded with 0).
   */
  function TeacherProgram(p: Program, trainset: seq<Dict>, maxLabeled: int, draws: nat -> nat): Program
  {
    if maxLabeled <= 0 then p else Labeled(p, trainset, maxLabeled, true, draws)
  }

  /**
   * The teacher of `_prepare_student_and_teacher`: a deep copy of the student, which,
   * with a positive `max_labeled_demos`, is replaced by `LabeledFewShot(k=max_labeled_demos)`
   * compiled (sampling) on its reset copy; that compile cannot raise, since k is positive.
   */
  method TeacherFor(student: Module, trainset: seq<Dict>, maxLabeled: int, source: Source) returns (t: Module)
    requires student.Valid()
    ensures fresh(t) && t.Valid() && t.order == student.order
    ensures forall i :: 0 <= i < |t.preds| ==> fresh(t.preds[i])
    ensures t.Value() == TeacherProgram(student.Value(), trainset, maxLabeled, source(0))
  {
    t := student.DeepCopy();
    if maxLabeled > 0 {
      var teleprompter := new LabeledFewShot(maxLabeled, source);
      var reset := t.ResetCopy();
      var compiled := teleprompter.Compile(reset, trainset, None, true);
      assert compiled.Success?;
      LabeledOfReset(student.Value(), trainset, maxLabeled, true, source(0));
      t := compiled.value;
    }
  }

  /**
   * The structure checks of `_prepare_predictor_mappings` cannot fail: the student is
   * a reset copy of the caller's program and the teacher is that program or its
   * labelled compile, and all of them keep its names, order and signatures.
   */
  lemma StructureChecksPass(p: Program, teacher: Program, trainset: seq<Dict>, maxLabeled: int, draws: nat -> nat)
    requires p.WellFormed()
    requires teacher == TeacherProgram(p, trainset, maxLabeled, draws)
    ensures p.Reset().WellFormed() && teacher.WellFormed() && Compatible(p.Reset(), teacher)
  {
    if 0 < maxLabeled {
      LabeledKeepsStructure(p, trainset, maxLabeled, true, draws);
    }
  }

  class BootstrapFewShot {
    const metricThreshold: Option<real>
    /** Accepted and stored, never read. */
    const teacherSettings: Dict
    const maxBootstrappedDemos: int
    const maxLabeledDemos: int
    const maxRounds: int
    const maxErrors: Option<int>
    const teacherLm: Option<LM>
    const evaluator: Evaluator
    /** The generator family: `random.Random(seed)` draws from `source(seed)`. */
    const source: Source
    /** The MD5-seeded choice among several demos of one predictor in one trace. */
    const tieBreak: seq<Dict> -> TieBreak
    /** How `_bootstrap_one_example` judges an answer: `Attempt` under the settings above (`Judges`). */
    const judge: (Result<RolloutResponse, Error>, Traces, nat) -> Effect

    var errorCount: nat
    var trainset: seq<Dict>
    var valset: Option<seq<Dict>>
    var student: Module?
    var teacher: Module?
    /** The keys of `name2predictor`, in insertion order (every value is None). */
    var name2predictor: seq<string>
    var predictor2name: map<string, string>
    var name2traces: Traces
    var validation: seq<Dict>

    /** `BootstrapFewShot(...)`; a missing `teacher_settings` becomes the empty dict. */
    constructor (metricThreshold: Option<real>, teacherSettings: Option<Dict>, maxBootstrappedDemos: int,
                 maxLabeledDemos: int, maxRounds: int, maxErrors: Option<int>, teacherLm: Option<LM>,
                 evaluator: Evaluator, source: Source, tieBreak: seq<Dict> -> TieBreak)
      ensures this.metricThreshold == metricThreshold
      ensures this.teacherSettings == (if teacherSettings.Some? then teacherSettings.value else map[])
      ensures this.maxBootstrappedDemos == maxBootstrappedDemos && this.maxLabeledDemos == maxLabeledDemos
      ensures this.maxRounds == maxRounds && this.maxErrors == maxErrors && this.teacherLm == teacherLm
      ensures this.evaluator == evaluator && this.source == source && this.tieBreak == tieBreak
      ensures errorCount == 0 && student == null && teacher == null
      ensures Judges()
    {
      this.metricThreshold := metricThreshold;
      this.teacherSettings := if teacherSettings.Some? then teacherSettings.value else map[];
      this.maxBootstrappedDemos := maxBootstrappedDemos;
      this.maxLabeledDemos := maxLabeledDemos;
      this.maxRounds := maxRounds;
      this.maxErrors := maxErrors;
      this.teacherLm := teacherLm;
      this.evaluator := evaluator;
      this.source := source;
      this.tieBreak := tieBreak;
      judge := (response: Result<RolloutResponse, Error>, traces: Traces, errorCount: nat) =>
                 Attempt(response, metricThreshold, traces, errorCount, maxErrors, tieBreak);
      errorCount := 0;
      trainset := [];
      valset := None;
      student := null;
      teacher := null;
      name2predictor := [];
      predictor2name := map[];
      name2traces := map[];
      validation := [];
    }

    /** The judging step is `Attempt` under this optimiser's threshold, error budget and tie-break. */
    ghost predicate Judges() {
      IsAttempt(judge, metricThreshold, maxErrors, tieBreak)
    }

    /** The loops' view of this optimiser with the teacher value `t`: its service, its judging step and its settings. */
    function Loop(t: Program): Config {
      Config(t, evaluator.respond, judge, metricThreshold, maxErrors, tieBreak, maxRounds, teacherLm, maxBootstrappedDemos)
    }

    /**
     * `_prepare_student_and_teacher`: the student becomes a reset copy and the teacher a
     * deep copy, which, with a positive `max_labeled_demos`, is replaced by the labelled
     * compile of its reset copy. Both are new objects; the caller's student is left as it was.
     */
    method PrepareStudentAndTeacher(student: Module)
      requires student.Valid()
      modifies this`student, this`teacher
      ensures student.Value() == old(student.Value())
      ensures this.student != null && fresh(this.student) && this.student.Valid() && this.student.order == student.order
      ensures forall i :: 0 <= i < |this.student.preds| ==> fresh(this.student.preds[i])
      ensures this.student.Value() == student.Value().Reset()
      ensures this.teacher != null && fresh(this.teacher) && this.teacher.Valid() && this.teacher.order == student.order
      ensures forall j :: 0 <= j < |this.teacher.preds| ==> this.teacher.preds[j] !in this.student.preds
      ensures this.teacher.Value() == TeacherProgram(student.Value(), trainset, maxLabeledDemos, source(0))
    {
      var s := student.ResetCopy();
      var t := TeacherFor(student, trainset, maxLabeledDemos, source);
      this.student := s;
      this.teacher := t;
    }

    /**
     * `_prepare_predictor_mappings`: an AssertionError unless student and teacher have
     * the same names in the same order with equal signatures; then every name maps to itself.
     */
    method PreparePredictorMappings() returns (r: Outcome<Error>)
      requires student != null && teacher != null && student.Valid() && teacher.Valid()
      modifies this`name2predictor, this`predictor2name
      ensures r.Pass? <==> Compatible(student.Value(), teacher.Value())
      ensures r.Fail? ==> r.error.AssertionError? && name2predictor == old(name2predictor) && predictor2name == old(predictor2name)
      ensures r.Pass? ==> name2predictor == student.order
      ensures r.Pass? ==> (forall name :: name in predictor2name <==> name in student.order) &&
                          forall name :: name in predictor2name ==> predictor2name[name] == name
    {
      var s := student.Predictors();
      var t := teacher.Predictors();
      if |s| != |t| {
        return Fail(AssertionError("Student and teacher must have the same number of predictors."));
      }
      var names: seq<string> := [];
      var mapping: map<string, string> := map[];
      for i := 0 to |s|
        invariant names == student.order[..i]
        invariant forall name :: name in mapping <==> name in names
        invariant forall name :: name in mapping ==> mapping[name] == name
        invariant forall j :: 0 <= j < i ==> student.order[j] == teacher.order[j] && s[j].signature == t[j].signature
      {
        if student.order[i] != teacher.order[i] {
          return Fail(AssertionError("Student and teacher must have the same program structure."));
        }
        if s[i].signature != t[i].signature {
          return Fail(AssertionError("Student and teacher must have the same signatures."));
        }
        names := names + [student.order[i]];
        mapping := mapping[student.order[i] := student.order[i]];
      }
      assert student.order[..|s|] == student.order;
      name2predictor := names;
      predictor2name := mapping;
      r := Pass;
    }

    /** The except branch of `_bootstrap_one_example`: count the error and raise it again once the budget is spent. */
    method CountError(e: Error) returns (r: Result<bool, Error>)
      modifies this`errorCount
      ensures Effect(r, name2traces, errorCount) == Raised(e, old(name2traces), old(errorCount), maxErrors)
    {
      errorCount := errorCount + 1;
      var current := errorCount;
      if maxErrors.Some? && current >= maxErrors.value {
        return Failure(e);
      }
      r := Success(false);
    }

    /**
     * The loop over `name2demos`: per predictor, its one demo, or the demo the
     * tie-break picks among several, is appended to its entry; a name without an
     * entry is a KeyError that goes to the except branch.
     */
    method RecordDemos(names: seq<string>, groups: map<string, seq<Dict>>) returns (r: Result<bool, Error>)
      requires Recordable(names, groups)
      modifies this`name2traces, this`errorCount
      ensures var rec := Record(old(name2traces), names, groups, tieBreak);
              Effect(r, name2traces, errorCount) ==
                if rec.missing.None? then Effect(Success(true), rec.traces, old(errorCount))
                else Raised(KeyError(rec.missing.value), rec.traces, old(errorCount), maxErrors)
    {
      var i := 0;
      while i < |names|
        invariant 0 <= i <= |names| && Recordable(names[..i], groups)
        invariant errorCount == old(errorCount)
        invariant Record(old(name2traces), names[..i], groups, tieBreak) == Recorded(name2traces, None)
      {
        var name := names[i];
        var demos := groups[name];
        assert names[..i + 1][..i] == names[..i];
        assert forall n :: n in names[..i + 1] ==> n in names;
        if name !in name2traces {
          RecordAfterMissing(old(name2traces), names, groups, tieBreak, i + 1);
          r := CountError(KeyError(name));
          return;
        }
        if |demos| > 1 {
          var choice := tieBreak(demos);
          var selected := if choice.Earlier? then demos[..|demos| - 1][choice.j % (|demos| - 1)] else demos[|demos| - 1];
          name2traces := name2traces[name := name2traces[name] + [selected]];
        } else {
          assert demos == [Chosen(demos, tieBreak(demos))];
          name2traces := name2traces[name := name2traces[name] + demos];
        }
        i := i + 1;
      }
      assert names[..i] == names;
      r := Success(true);
    }

    /**
     * `_bootstrap_one_example`: one traced request for the example, with the teacher
     * stripped of it and the LM of the round; its answer, or the exception it raised,
     * is judged by `Attempt`.
     */
    method BootstrapOneExample(example: Dict, roundIdx: nat) returns (r: Result<bool, Error>)
      requires teacher != null && teacher.Valid()
      modifies this`name2traces, this`errorCount, evaluator
      ensures evaluator.log == old(evaluator.log) + [SentRequest(Loop(teacher.Value()), example, roundIdx)]
      ensures Effect(r, name2traces, errorCount) ==
                Attempt(evaluator.respond(old(evaluator.log), SentRequest(Loop(teacher.Value()), example, roundIdx)), metricThreshold,
                        old(name2traces), old(errorCount), maxErrors, tieBreak)
    {
      var teacherCopy := CopyWithout(teacher, example);
      var lm := teacherLm;
      if roundIdx > 0 {
        if lm.Some? {
          lm := Some(lm.value.(rolloutId := Some(roundIdx), temperature := Some(1.0)));
        }
      }
      var response := evaluator.Evaluate([teacherCopy.Value()], [example], true, lm);
      r := Judge(response);
    }

    /**
     * The rest of `_bootstrap_one_example`: an exception goes to the except branch; a
     * result that is not exactly one scored, passing, traced result is a soft failure;
     * otherwise the trace's demos are recorded.
     */
    method Judge(response: Result<RolloutResponse, Error>) returns (r: Result<bool, Error>)
      modifies this`name2traces, this`errorCount
      ensures Effect(r, name2traces, errorCount) ==
                Attempt(response, metricThreshold, old(name2traces), old(errorCount), maxErrors, tieBreak)
    {
      if response.Failure? {
        r := CountError(response.error);
        return;
      }
      var results := response.value.results;
      if |results| != 1 {
        return Success(false);
      }
      var result := results[0];
      if result.score.None? {
        return Success(false);
      }
      var success := if metricThreshold.Some? then result.score.value >= metricThreshold.value else result.score.value > 0.0;
      if !success {
        return Success(false);
      }
      if result.trace.None? || result.trace.value == [] {
        return Success(false);
      }
      var names, groups := GroupTrace(result.trace.value);
      KeysMatchDemos(result.trace.value);
      r := RecordDemos(names, groups);
    }

    /**
     * The rounds loop of `_bootstrap` for one example: attempts, round by round, until
     * one passes, at most `max_rounds` of them; an exception of an attempt propagates.
     * What it sends, records and counts is the run of `Rounds`.
     */
    method TryExample(idx: nat) returns (r: Result<bool, Error>, tries: nat)
      requires teacher != null && teacher.Valid() && idx < |trainset|
      requires Judges()
      modifies this`name2traces, this`errorCount, evaluator
      ensures Run(r, evaluator.log, name2traces, errorCount) ==
                Rounds(Loop(old(teacher.Value())), trainset[idx], 0, old(evaluator.log), old(name2traces), old(errorCount))
      ensures |evaluator.log| == |old(evaluator.log)| + tries
    {
      var example := trainset[idx];
      ghost var c := Loop(teacher.Value());
      ghost var run := Rounds(c, example, 0, evaluator.log, name2traces, errorCount);
      var roundIdx := 0;
      tries := 0;
      while roundIdx < maxRounds
        invariant tries == roundIdx
        invariant |evaluator.log| == |old(evaluator.log)| + tries
        invariant Rounds(c, example, roundIdx, evaluator.log, name2traces, errorCount) == run
      {
        tries := tries + 1;
        r := BootstrapOneExample(example, roundIdx);
        if r.Failure? || r.value {
          return;
        }
        roundIdx := roundIdx + 1;
      }
      r := Success(false);
    }

    /**
     * The examples loop of `_bootstrap`: examples in trainset order, each tried by
     * `TryExample`, stopping before the next example once `max_bootstrapped_demos`
     * examples have passed; `exampleIdx` is the loop variable, unbound until the first
     * iteration. An exception of an attempt propagates. The outcome, the marked
     * examples, the requests, the traces and the error count are those of `Upto`.
     */
    method BootstrapExamples() returns (r: Outcome<Error>, bootstrapped: set<nat>, attempts: nat, exampleIdx: Option<nat>)
      requires teacher != null && teacher.Valid()
      requires Judges()
      modifies this`name2traces, this`errorCount, evaluator
      ensures var s := Upto(Loop(old(teacher.Value())), trainset, old(evaluator.log), old(name2traces), old(errorCount), |trainset|);
              r == s.result && bootstrapped == s.bootstrapped && evaluator.log == s.log && name2traces == s.traces &&
              errorCount == s.errorCount
      ensures |evaluator.log| == |old(evaluator.log)| + attempts
      ensures r.Pass? ==> (exampleIdx.Some? <==> 0 < |trainset|)
    {
      ghost var c := Loop(teacher.Value());
      ghost var log, traces, count := evaluator.log, name2traces, errorCount;
      r, attempts, bootstrapped, exampleIdx := Pass, 0, {}, None;
      ghost var goal := Examples(c, trainset, 0, Progress(r, false, bootstrapped, log, traces, count));
      var idx, stopped := 0, false;
      while idx < |trainset| && r.Pass? && !stopped
        invariant 0 <= idx <= |trainset|
        invariant exampleIdx.Some? <==> 0 < idx
        invariant |evaluator.log| == |log| + attempts
        invariant idx == 0 ==> r.Pass? && !stopped
        invariant Examples(c, trainset, idx, Progress(r, stopped, bootstrapped, evaluator.log, name2traces, errorCount)) == goal
      {
        exampleIdx := Some(idx);
        ghost var before := Progress(r, stopped, bootstrapped, evaluator.log, name2traces, errorCount);
        assert Examples(c, trainset, idx, before) == Examples(c, trainset, idx + 1, Step(c, trainset, idx, before));
        var tries;
        r, bootstrapped, stopped, tries := ExampleTurn(idx, bootstrapped);
        attempts := attempts + tries;
        idx := idx + 1;
      }
      ExamplesUpto(c, trainset, log, traces, count, 0);
    }

    /**
     * One turn of the examples loop of `_bootstrap` on example `idx`, with the
     * examples in `bootstrapped` passed so far: it stops once they reach
     * `max_bootstrapped_demos`, and otherwise tries the example.
     */
    method ExampleTurn(idx: nat, bootstrapped: set<nat>) returns (r: Outcome<Error>, marked: set<nat>, stopped: bool, tries: nat)
      requires teacher != null && teacher.Valid() && idx < |trainset|
      requires Judges()
      modifies this`name2traces, this`errorCount, evaluator
      ensures Progress(r, stopped, marked, evaluator.log, name2traces, errorCount) ==
              Step(Loop(old(teacher.Value())), trainset, idx,
                   Progress(Pass, false, bootstrapped, old(evaluator.log), old(name2traces), old(errorCount)))
      ensures |evaluator.log| == |old(evaluator.log)| + tries
    {
      if |bootstrapped| >= maxBootstrappedDemos {
        return Pass, bootstrapped, true, 0;
      }
      var passed;
      passed, tries := TryExample(idx);
      r := if passed.Failure? then Fail(passed.error) else Pass;
      marked := if passed == Success(true) then bootstrapped + {idx} else bootstrapped;
      stopped := false;
    }

    /**
     * `_bootstrap`: `name2traces` starts with an empty list per predictor name; after
     * the examples loop, the validation pool is the examples that did not pass,
     * shuffled by a generator seeded with 0. An empty trainset leaves `example_idx`
     * unbound for the summary line, which raises after the pool is set.
     */
    method Bootstrap() returns (r: Outcome<Error>, bootstrapped: set<nat>, attempts: nat)
      requires teacher != null && teacher.Valid()
      requires Judges()
      modifies this`name2traces, this`errorCount, this`validation, evaluator
      ensures var s := Finished(Loop(old(teacher.Value())), trainset, old(evaluator.log), name2predictor, old(errorCount));
              bootstrapped == s.bootstrapped && evaluator.log == s.log && name2traces == s.traces &&
              errorCount == s.errorCount && r == (if |trainset| == 0 then Fail(UnboundLocal("example_idx")) else s.result)
      ensures |evaluator.log| == |old(evaluator.log)| + attempts
      ensures r.Pass? || |trainset| == 0 ==> validation == ValidationPool(trainset, bootstrapped, source(0))
      ensures r.Fail? && 0 < |trainset| ==> validation == old(validation)
    {
      name2traces := EmptyTraces(name2predictor);
      var exampleIdx;
      r, bootstrapped, attempts, exampleIdx := BootstrapExamples();
      if r.Pass? {
        validation := ShufflePool(trainset, bootstrapped, source);
        if exampleIdx.None? {
          r := Fail(UnboundLocal("example_idx"));
        }
      }
    }

    /**
     * The set-up steps of `compile`: store the sets, prepare the student and the
     * teacher, and map the predictor names, whose structure check always passes.
     */
    method Prepare(student: Module, trainset: seq<Dict>, valset: Option<seq<Dict>>)
      requires student.Valid()
      modifies this`trainset, this`valset, this`student, this`teacher, this`name2predictor, this`predictor2name
      ensures student.Value() == old(student.Value())
      ensures this.trainset == trainset && this.valset == valset
      ensures this.student != null && fresh(this.student) && this.student.Valid() && this.student.order == student.order
      ensures forall i :: 0 <= i < |this.student.preds| ==> fresh(this.student.preds[i])
      ensures this.student.Value() == student.Value().Reset()
      ensures this.teacher != null && fresh(this.teacher) && this.teacher.Valid() && this.teacher.order == student.order
      ensures this.teacher.Value() == TeacherProgram(student.Value(), trainset, maxLabeledDemos, source(0))
      ensures forall j :: 0 <= j < |this.teacher.preds| ==> this.teacher.preds[j] !in this.student.preds
      ensures name2predictor == student.order
    {
      this.trainset := trainset;
      this.valset := valset;
      PrepareStudentAndTeacher(student);
      ghost var caller, reset, sent := student.Value(), this.student.Value(), this.teacher.Value();
      StructureChecksPass(caller, sent, trainset, maxLabeledDemos, source(0));
      var mapped := PreparePredictorMappings();
      assert mapped.Pass?;
      assert student.Value() == caller && this.student.Value() == reset && this.teacher.Value() == sent;
    }

    /**
     * The steps of `compile` after the set-up: bootstrap, then train the student,
     * which is stored and returned; the teacher is left as it was.
     */
    method BootstrapAndTrain() returns (r: Result<Module, Error>, ghost bootstrapped: set<nat>)
      requires student != null && teacher != null && student.Valid() && teacher.Valid()
      requires forall j :: 0 <= j < |teacher.preds| ==> teacher.preds[j] !in student.preds
      requires name2predictor == student.order
      requires Judges()
      modifies this`name2traces, this`errorCount, this`validation, evaluator, student.preds
      ensures teacher.Value() == old(teacher.Value())
      ensures var s := Finished(Loop(teacher.Value()), trainset, old(evaluator.log), student.order, old(errorCount));
              evaluator.log == s.log && errorCount == s.errorCount && bootstrapped == s.bootstrapped &&
              name2traces == s.traces && (r.Success? <==> 0 < |trainset| && s.result.Pass?) &&
              (r.Failure? && 0 < |trainset| ==> s.result == Fail(r.error))
      ensures SentSince(evaluator.log, |old(evaluator.log)|, teacher.Value(), trainset, maxRounds, teacherLm)
      ensures |evaluator.log| <= |old(evaluator.log)| + |trainset| * Max(0, maxRounds)
      ensures |trainset| == 0 ==> r == Failure(UnboundLocal("example_idx"))
      ensures r.Failure? && 0 < |trainset| ==> maxErrors.Some? && old(errorCount) < errorCount && maxErrors.value <= errorCount
      ensures r.Success? ==>
                (forall i :: i in bootstrapped ==> i < |trainset|) && |bootstrapped| <= Max(0, maxBootstrappedDemos) &&
                validation == ValidationPool(trainset, bootstrapped, source(0)) &&
                (forall name :: name in name2traces <==> name in student.order)
      ensures r.Success? ==>
                r.value == student &&
                r.value.Value() == Trained(old(student.Value()), TrainPlan(student.order, name2traces, validation,
                                           maxBootstrappedDemos, maxLabeledDemos, GeneratorSampler(source(0)), 0))
    {
      ghost var sent := teacher.Value();
      ghost var c, log, count := Loop(sent), evaluator.log, errorCount;
      var outcome, attempts;
      outcome, bootstrapped, attempts := Bootstrap();
      FinishedBounds(c, trainset, log, name2predictor, count);
      if outcome.Fail? {
        return Failure(outcome.error), bootstrapped;
      }
      var trained := Train();
      assert teacher.Value() == sent;
      r := Success(trained);
    }

    /**
     * `compile`: set up the student and the teacher, bootstrap, then train the
     * student, which is stored and returned. The `teacher` keyword some callers pass
     * is swallowed by `**kwargs` and has no effect, so it is not a parameter. The
     * error counter is not reset: it carries over from earlier compiles. Which
     * examples pass, and so the demos and the pool, are those of the examples loop
     * run on the service's answers.
     */
    method Compile(student: Module, trainset: seq<Dict>, valset: Option<seq<Dict>>)
      returns (r: Result<Module, Error>, ghost bootstrapped: set<nat>)
      requires student.Valid()
      requires Judges()
      modifies this`trainset, this`valset, this`student, this`teacher, this`name2predictor, this`predictor2name
      modifies this`name2traces, this`errorCount, this`validation, evaluator
      ensures student.Value() == old(student.Value())
      ensures this.trainset == trainset && this.valset == valset
      ensures this.teacher != null && fresh(this.teacher) && this.teacher.Valid() && this.teacher.order == student.order
      ensures this.teacher.Value() == TeacherProgram(student.Value(), trainset, maxLabeledDemos, source(0))
      ensures var s := Finished(Loop(this.teacher.Value()), trainset, old(evaluator.log), student.order, old(errorCount));
              evaluator.log == s.log && errorCount == s.errorCount && bootstrapped == s.bootstrapped &&
              name2traces == s.traces && (r.Success? <==> 0 < |trainset| && s.result.Pass?) &&
              (r.Failure? && 0 < |trainset| ==> s.result == Fail(r.error))
      ensures SentSince(evaluator.log, |old(evaluator.log)|, this.teacher.Value(), trainset, maxRounds, teacherLm)
      ensures |evaluator.log| <= |old(evaluator.log)| + |trainset| * Max(0, maxRounds)
      ensures |trainset| == 0 ==> r == Failure(UnboundLocal("example_idx"))
      ensures r.Failure? && 0 < |trainset| ==> maxErrors.Some? && old(errorCount) < errorCount && maxErrors.value <= errorCount
      ensures r.Success? ==>
                (forall i :: i in bootstrapped ==> i < |trainset|) && |bootstrapped| <= Max(0, maxBootstrappedDemos) &&
                validation == ValidationPool(trainset, bootstrapped, source(0)) &&
                (forall name :: name in name2traces <==> name in student.order)
      ensures r.Success? ==>
                r.value == this.student && fresh(r.value) && r.value.Valid() && r.value.order == student.order &&
                r.value.Value() == Trained(student.Value().Reset(),
                                           TrainPlan(student.order, name2traces, validation, maxBootstrappedDemos,
                                                     maxLabeledDemos, GeneratorSampler(source(0)), 0))
    {
      Prepare(student, trainset, valset);
      ghost var caller := student.Value();
      r, bootstrapped := BootstrapAndTrain();
      assert student.Value() == caller;
    }

    /**
     * `_train`: predictor by predictor, its bootstrapped demos cut at
     * `max_bootstrapped_demos`, then a sample of the pool that tops it up to
     * `max_labeled_demos`; that sample is the pool of the next predictor.
     */
    method Train() returns (s: Module)
      requires student != null && student.Valid() && teacher != null && teacher.Valid()
      requires forall j :: 0 <= j < |teacher.preds| ==> teacher.preds[j] !in student.preds
      modifies student.preds
      ensures s == student
      ensures teacher.Value() == old(teacher.Value())
      ensures s.Value() == Trained(old(s.Value()), TrainPlan(s.order, name2traces, validation, maxBootstrappedDemos,
                                                             maxLabeledDemos, GeneratorSampler(source(0)), 0))
    {
      var rng := new Random(source, 0);
      GeneratorSamplerOf(rng.draws);
      GeneratorDrawsWithoutReplacement(rng.draws);
      FillFromPlan(student, name2traces, validation, maxBootstrappedDemos, maxLabeledDemos, rng, GeneratorSampler(rng.draws));
      s := student;
    }
  }
}
