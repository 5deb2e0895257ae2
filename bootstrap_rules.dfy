/**
 * The decisions `BootstrapFewShot` takes on values (src/optiglot/optimizers/bootstrap.py):
 * the LM sent for each round, the teacher's demos with the current example removed,
 * the acceptance rule for a traced rollout, the grouping of trace steps into demos,
 * the error budget, the validation pool and the demo plan of `_train`.
 */
module BootstrapRules {
  import opened Wrappers
  import opened Lists
  import opened Models
  import opened Rand

  /** Collected demos per predictor name (`name2traces`). */
  type Traces = map<string, seq<Dict>>

  // ---------------------------------------------------------------------------
  // The LM of each round

  /**
   * Round 0 sends `teacher_lm` as it is; a later round sends a copy with the round
   * as rollout id and temperature 1.0, so that the service does not replay a cached answer.
   */
  function LmForRound(teacherLm: Option<LM>, roundIdx: nat): Option<LM>
  {
    if 0 < roundIdx && teacherLm.Some? then
      Some(teacherLm.value.(rolloutId := Some(roundIdx), temperature := Some(1.0)))
    else teacherLm
  }

  /** What each round sends: the teacher LM, a retry copy of it, or no override at all. */
  lemma LmForRoundCases(teacherLm: Option<LM>, roundIdx: nat)
    ensures roundIdx == 0 ==> LmForRound(teacherLm, roundIdx) == teacherLm
    ensures teacherLm.None? <==> LmForRound(teacherLm, roundIdx).None?
    ensures 0 < roundIdx && teacherLm.Some? ==>
              var lm := LmForRound(teacherLm, roundIdx).value;
              lm.model == teacherLm.value.model && lm.modelType == teacherLm.value.modelType &&
              lm.rolloutId == Some(roundIdx) && lm.temperature == Some(1.0)
  {
  }

  /** Two retry rounds of the same example never send the same LM. */
  lemma LmForRoundDistinct(teacherLm: Option<LM>, r1: nat, r2: nat)
    requires teacherLm.Some? && 0 < r1 && 0 < r2 && r1 != r2
    ensures LmForRound(teacherLm, r1) != LmForRound(teacherLm, r2)
  {
    assert LmForRound(teacherLm, r1).value.rolloutId != LmForRound(teacherLm, r2).value.rolloutId;
  }

  // ---------------------------------------------------------------------------
  // No leakage: the example is removed from the teacher's demos

  /** `[demo for demo in demos if demo != example]`. */
  function Without(demos: seq<Dict>, example: Dict): (r: seq<Dict>)
    ensures |r| <= |demos|
    ensures forall d :: d in r <==> d in demos && d != example
    ensures multiset(r)[example] == 0
    ensures forall d :: d != example ==> multiset(r)[d] == multiset(demos)[d]
  {
    if demos == [] then []
    else
      assert demos == [demos[0]] + demos[1..];
      (if demos[0] == example then [] else [demos[0]]) + Without(demos[1..], example)
  }

  /** The teacher copy sent for one example: every predictor's demos without that example. */
  function Strip(p: Program, example: Dict): (q: Program)
    ensures q.order == p.order && |q.predictors| == |p.predictors|
  {
    Program(p.order, seq(|p.predictors|, i requires 0 <= i < |p.predictors| =>
      p.predictors[i].(demos := Without(p.predictors[i].demos, example))))
  }

  /**
   * The stripped teacher keeps its structure and LMs, shows no demo equal to the
   * example, and keeps every other demo as often as before.
   */
  lemma StripNoLeak(p: Program, example: Dict)
    requires p.WellFormed()
    ensures Strip(p, example).WellFormed() && Compatible(Strip(p, example), p)
    ensures forall i :: 0 <= i < |p.predictors| ==>
              var d := Strip(p, example).predictors[i];
              d.lm == p.predictors[i].lm && example !in d.demos &&
              forall x :: x != example ==> multiset(d.demos)[x] == multiset(p.predictors[i].demos)[x]
  {
  }

  // ---------------------------------------------------------------------------
  // Acceptance of a traced rollout

  datatype Rejection = WrongResultCount(count: nat) | NoScore | BelowThreshold(score: real) | NoTrace

  datatype Verdict = Accept(trace: seq<TraceStep>) | Reject(reason: Rejection)

  /** With a threshold a score passes when it reaches it; without one, when it is positive. */
  predicate Passes(score: real, threshold: Option<real>) {
    match threshold
    case Some(t) => score >= t
    case None => score > 0.0
  }

  /**
   * The checks of `_bootstrap_one_example`, in their order: exactly one result, a
   * score, a passing score, a non-empty trace. Each failed check is a soft failure.
   */
  function Validate(response: RolloutResponse, threshold: Option<real>): (v: Verdict)
    ensures v.Accept? <==>
              |response.results| == 1 &&
              response.results[0].score.Some? && Passes(response.results[0].score.value, threshold) &&
              response.results[0].trace.Some? && response.results[0].trace.value != []
    ensures v.Accept? ==> v.trace == response.results[0].trace.value
    ensures |response.results| != 1 ==> v == Reject(WrongResultCount(|response.results|))
    ensures |response.results| == 1 && response.results[0].score.None? ==> v == Reject(NoScore)
  {
    var results := response.results;
    if |results| != 1 then Reject(WrongResultCount(|results|))
    else
      var result := results[0];
      match result.score
      case None => Reject(NoScore)
      case Some(score) =>
        if !Passes(score, threshold) then Reject(BelowThreshold(score))
        else if result.trace.None? || result.trace.value == [] then Reject(NoTrace)
        else Accept(result.trace.value)
  }

  // ---------------------------------------------------------------------------
  // Grouping trace steps into demos

  /** The demo made from one trace step. */
  function DemoOf(step: TraceStep): Dict {
    map["inputs" := Obj(step.inputs), "outputs" := step.prediction.output]
  }

  /** Whether a step yields a demo: its output is truthy. */
  predicate Yields(step: TraceStep) {
    Truthy(step.prediction.output)
  }

  /** The keys of `name2demos`: the names of the steps that yield a demo, by first occurrence. */
  function Keys(steps: seq<TraceStep>): seq<string>
    decreases |steps|
  {
    if steps == [] then []
    else
      var names := Keys(steps[..|steps| - 1]);
      var last := steps[|steps| - 1];
      if Yields(last) && last.predictorName !in names then names + [last.predictorName] else names
  }

  /** `name2demos[name]`: the demos of the steps of that predictor that yield one, in trace order. */
  function DemosFor(steps: seq<TraceStep>, name: string): seq<Dict>
    decreases |steps|
  {
    if steps == [] then []
    else
      var last := steps[|steps| - 1];
      DemosFor(steps[..|steps| - 1], name) + (if last.predictorName == name && Yields(last) then [DemoOf(last)] else [])
  }

  /** `name2demos` as a whole. */
  function Groups(steps: seq<TraceStep>): map<string, seq<Dict>> {
    map name | name in Keys(steps) :: DemosFor(steps, name)
  }

  /** Each name is a key once, and a name is a key exactly when some step of it yields a demo. */
  lemma {:induction false} KeysMatchDemos(steps: seq<TraceStep>)
    ensures Distinct(Keys(steps))
    ensures forall name :: name in Keys(steps) <==> DemosFor(steps, name) != []
    decreases |steps|
  {
    if steps != [] {
      KeysMatchDemos(steps[..|steps| - 1]);
    }
  }

  /** A predictor's demos are exactly the demos of its yielding steps. */
  lemma {:induction false} DemosForSteps(steps: seq<TraceStep>, name: string, d: Dict)
    ensures d in DemosFor(steps, name) <==>
              exists t :: 0 <= t < |steps| && steps[t].predictorName == name && Yields(steps[t]) && DemoOf(steps[t]) == d
    decreases |steps|
  {
    if steps != [] {
      var init := steps[..|steps| - 1];
      DemosForSteps(init, name, d);
      if d in DemosFor(init, name) {
        var t :| 0 <= t < |init| && init[t].predictorName == name && Yields(init[t]) && DemoOf(init[t]) == d;
        assert steps[t] == init[t];
      }
      if exists t :: 0 <= t < |steps| && steps[t].predictorName == name && Yields(steps[t]) && DemoOf(steps[t]) == d {
        var t :| 0 <= t < |steps| && steps[t].predictorName == name && Yields(steps[t]) && DemoOf(steps[t]) == d;
        if t < |init| {
          assert init[t] == steps[t];
        }
      }
    }
  }

  // ---------------------------------------------------------------------------
  // Choosing one demo per predictor

  /**
   * The hash-seeded choice between the demos of one predictor: an earlier demo
   * (the index is taken below the count of earlier demos) or the last one.
   */
  datatype TieBreak = Earlier(j: nat) | Last

  /** The demo kept for a predictor: its only demo, or the one the tie-break picks. */
  function Chosen(demos: seq<Dict>, tb: TieBreak): (d: Dict)
    requires demos != []
    ensures d in demos
    ensures |demos| == 1 ==> d == demos[0]
  {
    if |demos| == 1 then demos[0]
    else
      match tb
      case Earlier(j) => demos[j % (|demos| - 1)]
      case Last => demos[|demos| - 1]
  }

  /** The new traces, and the first name that had no entry (a KeyError), if any. */
  datatype Recorded = Recorded(traces: Traces, missing: Option<string>)

  predicate Recordable(names: seq<string>, groups: map<string, seq<Dict>>) {
    forall name :: name in names ==> name in groups && groups[name] != []
  }

  /**
   * The loop over `name2demos`: one chosen demo appended per name, until a name
   * without an entry raises KeyError; what was appended before stays.
   */
  function Record(traces: Traces, names: seq<string>, groups: map<string, seq<Dict>>, tieBreak: seq<Dict> -> TieBreak): Recorded
    requires Recordable(names, groups)
    decreases |names|
  {
    if names == [] then Recorded(traces, None)
    else
      var before := Record(traces, names[..|names| - 1], groups, tieBreak);
      var name := names[|names| - 1];
      if before.missing.Some? then before
      else if name !in before.traces then Recorded(before.traces, Some(name))
      else
        var demos := groups[name];
        Recorded(before.traces[name := before.traces[name] + [Chosen(demos, tieBreak(demos))]], None)
  }

  /** Recording never adds or removes a predictor name. */
  lemma {:induction false} RecordKeepsNames(traces: Traces, names: seq<string>, groups: map<string, seq<Dict>>, tieBreak: seq<Dict> -> TieBreak)
    requires Recordable(names, groups)
    ensures Record(traces, names, groups, tieBreak).traces.Keys == traces.Keys
    decreases |names|
  {
    if names != [] {
      RecordKeepsNames(traces, names[..|names| - 1], groups, tieBreak);
    }
  }

  /**
   * When every name has an entry, each of them gets exactly one demo appended, the
   * chosen one, and every other entry is unchanged.
   */
  lemma {:induction false} RecordComplete(traces: Traces, names: seq<string>, groups: map<string, seq<Dict>>, tieBreak: seq<Dict> -> TieBreak)
    requires Recordable(names, groups) && Distinct(names)
    ensures Record(traces, names, groups, tieBreak).traces.Keys == traces.Keys
    ensures Record(traces, names, groups, tieBreak).missing.None? <==> forall name :: name in names ==> name in traces
    ensures Record(traces, names, groups, tieBreak).missing.None? ==>
              var t := Record(traces, names, groups, tieBreak).traces;
              (forall name :: name in names ==> t[name] == traces[name] + [Chosen(groups[name], tieBreak(groups[name]))]) &&
              (forall name :: name in traces && name !in names ==> t[name] == traces[name])
    decreases |names|
  {
    if names != [] {
      var init := names[..|names| - 1];
      assert forall name :: name in init ==> name in names;
      RecordComplete(traces, init, groups, tieBreak);
      RecordKeepsNames(traces, init, groups, tieBreak);
      assert names == init + [names[|names| - 1]];
    }
  }

  /**
   * A KeyError names the first name without an entry; the names before it have
   * already had their demo appended.
   */
  lemma {:induction false} RecordMissing(traces: Traces, names: seq<string>, groups: map<string, seq<Dict>>,
                                         tieBreak: seq<Dict> -> TieBreak) returns (m: nat)
    requires Recordable(names, groups)
    requires Record(traces, names, groups, tieBreak).missing.Some?
    ensures m < |names| && names[m] == Record(traces, names, groups, tieBreak).missing.value && names[m] !in traces
    ensures forall t :: 0 <= t < m ==> names[t] in traces
    ensures Recordable(names[..m], groups) &&
            Record(traces, names, groups, tieBreak).traces == Record(traces, names[..m], groups, tieBreak).traces
    decreases |names|
  {
    var n := |names|;
    var init := names[..n - 1];
    assert forall name :: name in init ==> name in names;
    assert forall t :: 0 <= t < n - 1 ==> names[t] == init[t];
    var before := Record(traces, init, groups, tieBreak);
    RecordKeepsNames(traces, init, groups, tieBreak);
    if before.missing.Some? {
      m := RecordMissing(traces, init, groups, tieBreak);
      assert names[..m] == init[..m];
    } else {
      m := n - 1;
      assert names[..n - 1] == init;
      RecordAllPresent(traces, init, groups, tieBreak);
    }
  }

  /** Once a KeyError is raised, the names after it are not looked at. */
  lemma {:induction false} RecordAfterMissing(traces: Traces, names: seq<string>, groups: map<string, seq<Dict>>,
                                              tieBreak: seq<Dict> -> TieBreak, k: nat)
    requires Recordable(names, groups) && k <= |names|
    requires Record(traces, names[..k], groups, tieBreak).missing.Some?
    ensures Record(traces, names, groups, tieBreak) == Record(traces, names[..k], groups, tieBreak)
    decreases |names|
  {
    if k < |names| {
      var init := names[..|names| - 1];
      assert forall name :: name in init ==> name in names;
      assert init[..k] == names[..k];
      RecordAfterMissing(traces, init, groups, tieBreak, k);
    } else {
      assert names[..k] == names;
    }
  }

  /** Without a KeyError every name recorded so far had an entry. */
  lemma {:induction false} RecordAllPresent(traces: Traces, names: seq<string>, groups: map<string, seq<Dict>>, tieBreak: seq<Dict> -> TieBreak)
    requires Recordable(names, groups)
    requires Record(traces, names, groups, tieBreak).missing.None?
    ensures forall t :: 0 <= t < |names| ==> names[t] in traces
    decreases |names|
  {
    if names != [] {
      var init := names[..|names| - 1];
      assert forall name :: name in init ==> name in names;
      RecordAllPresent(traces, init, groups, tieBreak);
      RecordKeepsNames(traces, init, groups, tieBreak);
      assert forall t :: 0 <= t < |init| ==> names[t] == init[t];
    }
  }

  /** Recording appends at most the chosen demo to each entry, and nothing to a name it was not given. */
  lemma {:induction false} RecordAppendsAtMostOne(traces: Traces, names: seq<string>, groups: map<string, seq<Dict>>,
                                                  tieBreak: seq<Dict> -> TieBreak)
    requires Recordable(names, groups) && Distinct(names)
    ensures var t := Record(traces, names, groups, tieBreak).traces;
            t.Keys == traces.Keys &&
            forall name :: name in traces ==>
              t[name] == traces[name] ||
              (name in names && t[name] == traces[name] + [Chosen(groups[name], tieBreak(groups[name]))])
    decreases |names|
  {
    if names != [] {
      var init := names[..|names| - 1];
      assert forall name :: name in init ==> name in names;
      RecordAppendsAtMostOne(traces, init, groups, tieBreak);
      RecordKeepsNames(traces, init, groups, tieBreak);
    }
  }

  // ---------------------------------------------------------------------------
  // One attempt and the error budget

  /** The effect of one attempt: its result and the new `name2traces` and `error_count`. */
  datatype Effect = Effect(result: Result<bool, Error>, traces: Traces, errorCount: nat)

  /** The except branch: count the error, and raise it again once the budget is spent. */
  function Raised(e: Error, traces: Traces, errorCount: nat, maxErrors: Option<int>): Effect
  {
    var count := errorCount + 1;
    if maxErrors.Some? && count >= maxErrors.value then Effect(Failure(e), traces, count)
    else Effect(Success(false), traces, count)
  }

  /** `_bootstrap_one_example` after the request: what the answer (or the raised error) leads to. */
  function Attempt(response: Result<RolloutResponse, Error>, threshold: Option<real>, traces: Traces,
                   errorCount: nat, maxErrors: Option<int>, tieBreak: seq<Dict> -> TieBreak): Effect
  {
    match response
    case Failure(e) => Raised(e, traces, errorCount, maxErrors)
    case Success(answer) =>
      match Validate(answer, threshold)
      case Reject(_) => Effect(Success(false), traces, errorCount)
      case Accept(trace) =>
        KeysMatchDemos(trace);
        var rec := Record(traces, Keys(trace), Groups(trace), tieBreak);
        if rec.missing.None? then Effect(Success(true), rec.traces, errorCount)
        else Raised(KeyError(rec.missing.value), rec.traces, errorCount, maxErrors)
  }

  /**
   * Every exception adds exactly one to the count; it is raised again exactly when
   * a budget is set and the new count reaches it; otherwise nothing is counted.
   */
  lemma AttemptErrorBudget(response: Result<RolloutResponse, Error>, threshold: Option<real>, traces: Traces,
                           errorCount: nat, maxErrors: Option<int>, tieBreak: seq<Dict> -> TieBreak)
    ensures var e := Attempt(response, threshold, traces, errorCount, maxErrors, tieBreak);
            (e.errorCount == errorCount || e.errorCount == errorCount + 1) &&
            (e.result.Failure? <==> e.errorCount == errorCount + 1 && maxErrors.Some? && e.errorCount >= maxErrors.value) &&
            (e.result.Failure? ==> e.result.error.KeyError? || response == Failure(e.result.error))
    ensures response.Failure? ==> Attempt(response, threshold, traces, errorCount, maxErrors, tieBreak).errorCount == errorCount + 1
  {
  }

  /**
   * An attempt keeps the predictor names of `name2traces` and appends at most one
   * demo to each entry, whether it succeeds, fails softly or raises.
   */
  lemma AttemptAppendsAtMostOne(response: Result<RolloutResponse, Error>, threshold: Option<real>, traces: Traces,
                                errorCount: nat, maxErrors: Option<int>, tieBreak: seq<Dict> -> TieBreak)
    ensures var t := Attempt(response, threshold, traces, errorCount, maxErrors, tieBreak).traces;
            t.Keys == traces.Keys &&
            forall name :: name in traces ==>
              |traces[name]| <= |t[name]| <= |traces[name]| + 1 && t[name][..|traces[name]|] == traces[name]
  {
    if response.Success? && Validate(response.value, threshold).Accept? {
      var trace := Validate(response.value, threshold).trace;
      KeysMatchDemos(trace);
      RecordAppendsAtMostOne(traces, Keys(trace), Groups(trace), tieBreak);
    }
  }

  /** A rejected answer is a soft failure: False, nothing recorded, nothing counted. */
  lemma AttemptSoftFailure(answer: RolloutResponse, threshold: Option<real>, traces: Traces,
                           errorCount: nat, maxErrors: Option<int>, tieBreak: seq<Dict> -> TieBreak)
    requires Validate(answer, threshold).Reject?
    ensures Attempt(Success(answer), threshold, traces, errorCount, maxErrors, tieBreak) == Effect(Success(false), traces, errorCount)
  {
  }

  /**
   * A successful attempt came from an accepted trace, and every predictor named
   * by a yielding step got exactly one demo appended, one of its own demos from this trace.
   */
  lemma AttemptSuccess(response: Result<RolloutResponse, Error>, threshold: Option<real>, traces: Traces,
                       errorCount: nat, maxErrors: Option<int>, tieBreak: seq<Dict> -> TieBreak)
    requires Attempt(response, threshold, traces, errorCount, maxErrors, tieBreak).result == Success(true)
    ensures response.Success? && Validate(response.value, threshold).Accept?
    ensures var trace := Validate(response.value, threshold).trace;
            var t := Attempt(response, threshold, traces, errorCount, maxErrors, tieBreak).traces;
            t.Keys == traces.Keys &&
            (forall name :: name in Keys(trace) ==>
               name in traces && |t[name]| == |traces[name]| + 1 && t[name][..|traces[name]|] == traces[name] &&
               t[name][|traces[name]|] in DemosFor(trace, name)) &&
            (forall name :: name in traces && name !in Keys(trace) ==> t[name] == traces[name])
  {
    var trace := Validate(response.value, threshold).trace;
    KeysMatchDemos(trace);
    RecordComplete(traces, Keys(trace), Groups(trace), tieBreak);
    RecordKeepsNames(traces, Keys(trace), Groups(trace), tieBreak);
  }

  // ---------------------------------------------------------------------------
  // The validation pool

  /** `[x for idx, x in enumerate(trainset) if idx not in bootstrapped]`. */
  function Unbootstrapped(trainset: seq<Dict>, bootstrapped: set<nat>): seq<Dict>
    decreases |trainset|
  {
    if trainset == [] then []
    else
      var n := |trainset|;
      Unbootstrapped(trainset[..n - 1], bootstrapped) + (if n - 1 in bootstrapped then [] else [trainset[n - 1]])
  }

  lemma {:induction false} UnbootstrappedAgrees(trainset: seq<Dict>, b: set<nat>, c: set<nat>)
    requires forall i :: 0 <= i < |trainset| ==> (i in b <==> i in c)
    ensures Unbootstrapped(trainset, b) == Unbootstrapped(trainset, c)
    decreases |trainset|
  {
    if trainset != [] {
      UnbootstrappedAgrees(trainset[..|trainset| - 1], b, c);
    }
  }

  /** The pool holds every example that was not bootstrapped, and only those. */
  lemma {:induction false} UnbootstrappedSize(trainset: seq<Dict>, bootstrapped: set<nat>)
    requires forall i :: i in bootstrapped ==> i < |trainset|
    ensures |Unbootstrapped(trainset, bootstrapped)| == |trainset| - |bootstrapped|
    ensures multiset(Unbootstrapped(trainset, bootstrapped)) <= multiset(trainset)
    decreases |trainset|
  {
    if trainset != [] {
      var n := |trainset|;
      var init := trainset[..n - 1];
      var rest := bootstrapped - {n - 1};
      UnbootstrappedAgrees(init, bootstrapped, rest);
      UnbootstrappedSize(init, rest);
      assert trainset == init + [trainset[n - 1]];
      if n - 1 in bootstrapped {
        assert |bootstrapped| == |rest| + 1;
      } else {
        assert rest == bootstrapped;
      }
    }
  }

  /** The validation pool: the examples that did not pass, shuffled by a generator seeded with 0. */
  function ValidationPool(trainset: seq<Dict>, bootstrapped: set<nat>, draws: nat -> nat): seq<Dict>
  {
    Shuffled(Unbootstrapped(trainset, bootstrapped), draws, 0)
  }

  /** The pool is a permutation of the examples that did not pass, so it has one entry per such example. */
  lemma ValidationPoolContents(trainset: seq<Dict>, bootstrapped: set<nat>, draws: nat -> nat)
    requires forall i :: i in bootstrapped ==> i < |trainset|
    ensures multiset(ValidationPool(trainset, bootstrapped, draws)) == multiset(Unbootstrapped(trainset, bootstrapped))
    ensures |ValidationPool(trainset, bootstrapped, draws)| == |trainset| - |bootstrapped|
    ensures multiset(ValidationPool(trainset, bootstrapped, draws)) <= multiset(trainset)
  {
    UnbootstrappedSize(trainset, bootstrapped);
    ShuffledPermutes(Unbootstrapped(trainset, bootstrapped), draws, 0);
  }

  // ---------------------------------------------------------------------------
  // The plan of `_train`

  /**
   * What one predictor receives: its bootstrapped prefix, then its labelled draw;
   * for the contract, also the pool `raw_demos` it was drawn from and the number of
   * draws the generator had taken before it.
   */
  datatype Plan = Plan(augmented: seq<Dict>, pool: seq<Dict>, at: nat, labelled: seq<Dict>)
  {
    function Demos(): seq<Dict> {
      augmented + labelled
    }
  }

  /** The program whose predictor i has the demos of plan i, and is otherwise unchanged. */
  function Trained(p: Program, plan: seq<Plan>): (q: Program)
    requires |plan| == |p.predictors|
    ensures q.order == p.order && |q.predictors| == |p.predictors|
  {
    Program(p.order, seq(|plan|, i requires 0 <= i < |plan| => p.predictors[i].(demos := plan[i].Demos())))
  }

  /** A program whose every predictor holds its signature, its LM and its planned demos is the trained program. */
  lemma TrainedFromParts(p: Program, q: Program, plan: seq<Plan>)
    requires |plan| == |p.predictors| && q.order == p.order && |q.predictors| == |p.predictors|
    requires forall j :: 0 <= j < |p.predictors| ==>
               q.predictors[j].signature == p.predictors[j].signature && q.predictors[j].lm == p.predictors[j].lm &&
               q.predictors[j].demos == plan[j].Demos()
    ensures q == Trained(p, plan)
  {
  }

  /** `self.name2traces.get(name, [])[:max_bootstrapped_demos]`. */
  function Augmented(traces: Traces, name: string, maxBootstrapped: int): seq<Dict> {
    Prefix(if name in traces then traces[name] else [], maxBootstrapped)
  }

  /** `max(0, min(max_labeled_demos - len(augmented), len(raw_demos)))`. */
  function SampleSize(maxLabeled: int, augmented: nat, pool: nat): (n: nat)
    ensures n <= pool
  {
    Max(0, Min(maxLabeled - augmented, pool))
  }

  /**
   * A sampler: `sample(pool, n, at)` draws n demos from the pool, starting at raw draw
   * number `at` of the generator.
   */
  type Sampler = (seq<Dict>, nat, nat) -> seq<Dict>

  /** The sampler of a generator: `random.sample`, capped at the pool size. */
  function GeneratorSampler(draws: nat -> nat): Sampler {
    (pool: seq<Dict>, n: nat, at: nat) => SampleFrom(pool, Min(n, |pool|), draws, at)
  }

  /** `sample` is the sampler of a generator with these draws. */
  ghost predicate SamplerOf(sample: Sampler, draws: nat -> nat) {
    forall pool: seq<Dict>, n: nat, at: nat {:trigger SampleFrom(pool, n, draws, at)} ::
      n <= |pool| ==> sample(pool, n, at) == SampleFrom(pool, n, draws, at)
  }

  lemma GeneratorSamplerOf(draws: nat -> nat)
    ensures SamplerOf(GeneratorSampler(draws), draws)
  {
    forall pool: seq<Dict>, n: nat, at: nat | n <= |pool|
      ensures GeneratorSampler(draws)(pool, n, at) == SampleFrom(pool, n, draws, at)
    {
      assert Min(n, |pool|) == n;
    }
  }

  /** A sampler that draws exactly n demos from a pool of at least n. */
  ghost predicate SamplesOfSize(sample: Sampler) {
    forall pool: seq<Dict>, n: nat, at: nat :: n <= |pool| ==> |sample(pool, n, at)| == n
  }

  /** A sampler that takes each demo from its own position of the pool. */
  ghost predicate DrawsWithoutReplacement(sample: Sampler) {
    forall pool: seq<Dict>, n: nat, at: nat :: n <= |pool| ==> multiset(sample(pool, n, at)) <= multiset(pool)
  }

  /** `random.sample` draws without replacement. */
  lemma GeneratorDrawsWithoutReplacement(draws: nat -> nat)
    ensures SamplesOfSize(GeneratorSampler(draws)) && DrawsWithoutReplacement(GeneratorSampler(draws))
  {
    forall pool: seq<Dict>, n: nat, at: nat | n <= |pool|
      ensures |GeneratorSampler(draws)(pool, n, at)| == n
      ensures multiset(GeneratorSampler(draws)(pool, n, at)) <= multiset(pool)
    {
      assert Min(n, |pool|) == n;
      SampleFromSubMultiset(pool, n, draws, at);
    }
  }

  /**
   * The loop of `_train`, predictor by predictor: each labelled draw is a sample of
   * the previous draw (the pool shrinks), taken from one generator seeded with 0.
   */
  function TrainPlan(names: seq<string>, traces: Traces, pool: seq<Dict>, maxBootstrapped: int, maxLabeled: int,
                     sample: Sampler, at: nat): (plan: seq<Plan>)
    ensures |plan| == |names|
    decreases |names|
  {
    if names == [] then []
    else
      var augmented := Augmented(traces, names[0], maxBootstrapped);
      var size := SampleSize(maxLabeled, |augmented|, |pool|);
      var labelled := sample(pool, size, at);
      [Plan(augmented, pool, at, labelled)] + TrainPlan(names[1..], traces, labelled, maxBootstrapped, maxLabeled, sample, at + size)
  }

  /**
   * Predictor i's bootstrapped part is its traces cut at max_bootstrapped_demos; its
   * labelled part is a sample of clamp(max_labeled_demos - |augmented|, 0, |pool|)
   * demos from its pool; that pool is the validation pool for
   * the first predictor and the previous predictor's draw after it, and the
   * generator goes on from where the previous draw left it.
   */
  lemma {:induction false} TrainPlanStep(names: seq<string>, traces: Traces, pool: seq<Dict>, maxBootstrapped: int,
                                         maxLabeled: int, sample: Sampler, at: nat, i: nat)
    requires SamplesOfSize(sample) && i < |names|
    ensures var plan := TrainPlan(names, traces, pool, maxBootstrapped, maxLabeled, sample, at);
            var size := SampleSize(maxLabeled, |plan[i].augmented|, |plan[i].pool|);
            plan[i].augmented == Augmented(traces, names[i], maxBootstrapped) &&
            plan[i].labelled == sample(plan[i].pool, size, plan[i].at) &&
            |plan[i].labelled| == size &&
            (i == 0 ==> plan[i].pool == pool && plan[i].at == at) &&
            (0 < i ==> plan[i].pool == plan[i - 1].labelled && plan[i].at == plan[i - 1].at + |plan[i - 1].labelled|)
    decreases i
  {
    var plan := TrainPlan(names, traces, pool, maxBootstrapped, maxLabeled, sample, at);
    var augmented := Augmented(traces, names[0], maxBootstrapped);
    var size := SampleSize(maxLabeled, |augmented|, |pool|);
    var labelled := sample(pool, size, at);
    var rest := TrainPlan(names[1..], traces, labelled, maxBootstrapped, maxLabeled, sample, at + size);
    assert plan == [Plan(augmented, pool, at, labelled)] + rest;
    assert |labelled| == size;
    if 0 < i {
      TrainPlanStep(names[1..], traces, labelled, maxBootstrapped, maxLabeled, sample, at + size, i - 1);
      assert plan[i] == rest[i - 1];
      assert names[i] == names[1..][i - 1];
      if 1 < i {
        assert plan[i - 1] == rest[i - 2];
      } else {
        assert plan[i - 1] == Plan(augmented, pool, at, labelled);
      }
    }
  }


  /** What one step of `_train`'s loop needs: predictor i's parts, and where the next predictor starts. */
  lemma TrainPlanLink(names: seq<string>, traces: Traces, pool: seq<Dict>, maxBootstrapped: int,
                      maxLabeled: int, sample: Sampler, at: nat, i: nat)
    requires SamplesOfSize(sample) && i < |names|
    ensures var plan := TrainPlan(names, traces, pool, maxBootstrapped, maxLabeled, sample, at);
            plan[i].augmented == Augmented(traces, names[i], maxBootstrapped) &&
            plan[i].labelled == sample(plan[i].pool, SampleSize(maxLabeled, |plan[i].augmented|, |plan[i].pool|), plan[i].at) &&
            (i + 1 < |names| ==> plan[i + 1].pool == plan[i].labelled && plan[i + 1].at == plan[i].at + |plan[i].labelled|)
  {
    TrainPlanStep(names, traces, pool, maxBootstrapped, maxLabeled, sample, at, i);
    if i + 1 < |names| {
      TrainPlanStep(names, traces, pool, maxBootstrapped, maxLabeled, sample, at, i + 1);
    }
  }

  /**
   * Each pool is a sub-multiset of the one before it, every labelled demo comes
   * from the validation pool, and with a non-negative
   * max_bootstrapped_demos no predictor gets more than max(max_bootstrapped_demos,
   * max_labeled_demos) demos.
   */
  lemma {:induction false} TrainPlanBounds(names: seq<string>, traces: Traces, pool: seq<Dict>, maxBootstrapped: int,
                                           maxLabeled: int, sample: Sampler, at: nat, i: nat)
    requires SamplesOfSize(sample) && DrawsWithoutReplacement(sample) && i < |names|
    ensures var plan := TrainPlan(names, traces, pool, maxBootstrapped, maxLabeled, sample, at);
            multiset(plan[i].labelled) <= multiset(plan[i].pool) && multiset(plan[i].labelled) <= multiset(pool) &&
            (0 <= maxBootstrapped ==> |plan[i].augmented| <= maxBootstrapped &&
                                      |plan[i].Demos()| <= Max(maxBootstrapped, maxLabeled))
    decreases i
  {
    TrainPlanStep(names, traces, pool, maxBootstrapped, maxLabeled, sample, at, i);
    if 0 < i {
      TrainPlanBounds(names, traces, pool, maxBootstrapped, maxLabeled, sample, at, i - 1);
    }
  }

  /** With a non-negative `max_bootstrapped_demos`, no trained predictor holds more than max(max_bootstrapped_demos, max_labeled_demos) demos. */
  lemma TrainedDemoBound(p: Program, names: seq<string>, traces: Traces, pool: seq<Dict>, maxBootstrapped: int,
                         maxLabeled: int, draws: nat -> nat)
    requires |names| == |p.predictors| && 0 <= maxBootstrapped
    ensures var q := Trained(p, TrainPlan(names, traces, pool, maxBootstrapped, maxLabeled, GeneratorSampler(draws), 0));
            forall i :: 0 <= i < |q.predictors| ==> |q.predictors[i].demos| <= Max(maxBootstrapped, maxLabeled)
  {
    GeneratorDrawsWithoutReplacement(draws);
    forall i | 0 <= i < |names| {
      TrainPlanBounds(names, traces, pool, maxBootstrapped, maxLabeled, GeneratorSampler(draws), 0, i);
    }
  }
}
