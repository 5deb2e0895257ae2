# optiglot few-shot optimisers, modelled in Dafny

This project models how optiglot chooses the demonstrations of a prompt program.
A program (`RPCModule`) is a dict of named predictors. Each predictor has a signature, a list of demos and an optional LM override. The program itself runs on a remote execution service.

The model covers these parts of optiglot:

- **`BootstrapFewShot`** (`optimizers/bootstrap.py`):
  - It prepares a reset student and a teacher, then checks that the two have the same structure.
  - It runs the teacher with tracing on each training example, for up to `max_rounds` rounds. Each run uses a copy of the teacher with that example removed from its demos.
  - It accepts a run by its score and its trace, and records one demo per predictor for each passing example.
  - It counts exceptions against an error budget.
  - It shuffles the examples that did not pass into a validation pool.
  - Finally it trains the student. Each predictor gets its bootstrapped demos, topped up with labelled examples drawn from a pool that shrinks from one predictor to the next.
- **`LabeledFewShot`** (`optimizers/vanilla.py`): each predictor of a reset copy gets the first k training examples, or a sample of k drawn without replacement.
- **The program data model** (`models.py`): `reset`, `deepcopy`, `reset_copy`, `predictors`, `with_instructions` and `total_usage`.
- **The helpers of `utils.py`**: `create_minibatch`, `eval_candidate_program` and `create_n_fewshot_demo_sets`. The last one builds, for each predictor, a list of candidate demo sets: zero-shot, labels-only, unshuffled bootstrap and shuffled bootstraps.

How the source maps onto the model:

- The objects that the source changes in place are classes with those fields: `Predict`, `Module`, `LabeledFewShot`, `BootstrapFewShot`, `Evaluator` and `Random`. Their loops are methods with loop invariants.
- The two loops of `_bootstrap` are also functions of the service's answers (`BootstrapLoop`): `Rounds` for the rounds of one example, `Upto` for the examples loop after n examples. The methods return exactly what these functions give, so the lemmas about them (which examples pass, what is sent, how the traces and the error count change) hold of every compile.
- A `BootstrapFewShot` fixes at construction how it judges an answer: its `judge` is `Attempt` under its threshold, error budget and tie-break (`Judges()`, ensured by the constructor and required by the loop methods).
- Each method is proved against a function or predicate on values: `Labeled`, `Strip`, `Attempt`, `Record`, `ValidationPool`, `TrainPlan` and `Trained`. The lemmas prove the properties of those functions.
- The execution service is a function from the requests sent so far and the new request to a response or an exception. The `Evaluator` keeps the log of every request it has sent, so the contracts can say what was sent.
- A generator is a stream of raw draws fixed by its seed (`Source`).
  - `random.sample` and `random.shuffle` keep the library's structure: which draw picks which position. They do not reproduce its bit-exact output.
  - The MD5-seeded choice between several demos of one predictor is an oracle `tieBreak`. It picks either an earlier demo or the last one.

Behaviours of the code a reader may not expect:

- The docstring of `create_n_fewshot_demo_sets` (utils.py:146-152) lists zero-shot, labels-only, unshuffled and shuffled sets, but the first three sets are not always of those kinds.
  - When `include_non_bootstrapped` is false, sets -3 and -2 fall through to the shuffled branch.
  - When `max_labeled_demos <= 0`, set -2 falls through to the shuffled branch too.
- Some out-of-range counts raise ValueError:
  - `LabeledFewShot` with sampling and a negative k raises ValueError, provided the trainset is non-empty and the student has a predictor.
  - `randint(min_num_samples, max_bootstrapped_demos)` over an empty range raises ValueError.
- `BootstrapFewShot.compile` on an empty trainset raises UnboundLocalError. The summary line reads `example_idx`, which the loop never bound. This happens after the validation pool is set.
- A trace step whose predictor name has no entry in `name2traces` raises KeyError. The generic handler catches it and counts it against the error budget, like a transport failure. Demos appended earlier in the same loop stay.
- `error_count` is not reset between compiles.
- The `teacher=` keyword that `create_n_fewshot_demo_sets` passes is swallowed by `**kwargs` and has no effect.

## Model

| member | source | states |
|---|---|---|
| Models.Signature.WithInstructions | src/optiglot/models.py:21-22 | only the instructions change; input and output fields are kept |
| Models.Program.Reset | src/optiglot/models.py:49-51 | the value of a program whose every predictor is reset: same names and order, each signature kept, no demos, no LM |
| Models.Predict.Reset | src/optiglot/models.py:49-51 | demos become empty and the LM None; the signature is unchanged |
| Models.Predict.DeepCopy | src/optiglot/models.py:46-47 | a new predictor object equal to the original |
| Models.Module.Predictors | src/optiglot/models.py:59-61 | the predictor objects in insertion order, one per name, all distinct |
| Models.Module.Value | src/optiglot/models.py:54-57 | the serialised program has the module's names in order and each predictor's value at its position |
| Models.Module.DeepCopy | src/optiglot/models.py:63-64 | a new module, equal in value, whose predictor objects are all new, so nothing is shared with the original |
| Models.Module.ResetCopy | src/optiglot/models.py:66-72 | a new module, sharing no predictor, with the same names and order, whose value is the original's value reset; the original is untouched |
| Models.RolloutResponse.TotalUsage | src/optiglot/models.py:134-151 | None exactly when there are no results; otherwise each counter is the sum over results with usage, and all three are zero when no result has usage |
| Models.UsageSumAppend | src/optiglot/models.py:138-146 | the sum of a counter over two lists of results is the sum of the two sums |
| Models.UsageSumWithoutUsage | src/optiglot/models.py:138-146 | results without usage sum to zero |
| Models.UsageSumBounds | src/optiglot/models.py:138-146 | with non-negative counters, each result's counter is at most the total |
| Models.UsageSumNonNegative | src/optiglot/models.py:138-146 | with non-negative counters the total is non-negative |
| Models.TotalUsageOfConcat | src/optiglot/models.py:134-151 | the usage of two non-empty responses together is the counter-wise sum of their usages |
| Models.Truthy | src/optiglot/optimizers/bootstrap.py:248 | definition: Python truthiness of a JSON value (empty containers, zero, empty string, False and None are false); decides which trace steps yield demos |
| Lists.Prefix | src/optiglot/optimizers/vanilla.py:62 | Python's `xs[:stop]`: the first min(stop, len) elements, or all but the last -stop for a negative stop |
| Lists.Range | src/optiglot/utils.py:99 | `range(n)`: n indices 0..n-1 in order |
| Rand.TakeOut | src/optiglot/optimizers/vanilla.py:57-60 | one step of `random.sample`: the pool minus the taken position, as a multiset, with the last element moved into the gap |
| Rand.SampleFrom | src/optiglot/optimizers/vanilla.py:57-60 | a sample of k from a pool of at least k has exactly k elements |
| Rand.SampleFromSubMultiset | src/optiglot/optimizers/vanilla.py:57-60 | a sample takes each element from its own position: it is a sub-multiset of the pool |
| Rand.ShuffleDown | src/optiglot/optimizers/bootstrap.py:166 | the swaps of `random.shuffle` keep the length |
| Rand.ShuffleDownPermutes | src/optiglot/optimizers/bootstrap.py:166 | each swap keeps the multiset of elements |
| Rand.Shuffled | src/optiglot/utils.py:237 | a shuffle keeps the length |
| Rand.ShuffledPermutes | src/optiglot/utils.py:237 | a shuffle is a permutation: the same elements, each as often |
| Rand.Random.RandBelow | src/optiglot/utils.py:238 | a number below n from the next draw; one draw used |
| Rand.Random.RandInt | src/optiglot/utils.py:238 | succeeds exactly for a <= b, with a value in [a, b] from one draw; otherwise ValueError and no draw used |
| Rand.Random.Sample | src/optiglot/optimizers/vanilla.py:57-60 | succeeds exactly for 0 <= k <= len, with the sample drawn from the next k draws; otherwise ValueError and no draw used |
| Rand.Random.Shuffle | src/optiglot/utils.py:237 | the shuffle of the list from the generator's next draws; len - 1 draws used |
| Evaluation.Evaluator.Evaluate | src/optiglot/utils.py:36-83 | exactly one request with these candidates, examples, trace flag and LM is appended to the log, and the result is the service's answer to it |
| Evaluation.Pick | src/optiglot/utils.py:102 | `[trainset[i] for i in sampled_indices]`, position by position |
| Evaluation.PickTakeOut | src/optiglot/utils.py:99-102 | taking a position out of the indices and then looking them up is the same as looking them up and then taking the position out |
| Evaluation.SampleBelow | src/optiglot/utils.py:99 | indices sampled from indices below n are below n |
| Evaluation.SampleCommutesWithPick | src/optiglot/utils.py:99-102 | sampling indices and then looking them up is the same as sampling the looked-up elements |
| Evaluation.SampleUnfold | src/optiglot/utils.py:99 | one step of the sample: the element at the drawn position, then a sample of the rest |
| Evaluation.PickCons | src/optiglot/utils.py:102 | looking up one more index prepends that element |
| Evaluation.CreateMinibatch | src/optiglot/utils.py:86-104 | ValueError exactly for a negative batch size; otherwise exactly min(batch_size, len) examples from distinct positions of the trainset, namely the generator's sample of it |
| Evaluation.EvalCandidateProgram | src/optiglot/utils.py:107-125 | the whole trainset is sent when the batch size covers it, with no draw used; otherwise a minibatch of exactly batch_size examples from distinct positions; a negative size below the trainset size raises ValueError and sends nothing; the answer is the service's |
| Vanilla.LabeledKeepsStructure | src/optiglot/optimizers/vanilla.py:46-62 | the compiled program is well formed, has the student's names, order and signatures, and no LM override |
| Vanilla.LabeledOfEmpty | src/optiglot/optimizers/vanilla.py:46-51 | with an empty trainset the result is the reset student: no demos, no LM |
| Vanilla.LabeledFromParts | src/optiglot/optimizers/vanilla.py:55-62 | a program whose every predictor holds its signature, its labelled demos and no LM is the compiled program |
| Vanilla.LabeledOfReset | src/optiglot/optimizers/vanilla.py:46 | compiling the reset copy gives the same program as compiling the student: only signatures matter |
| Vanilla.LabeledDemoCount | src/optiglot/optimizers/vanilla.py:55-62 | with k >= 0 every predictor gets exactly min(k, len(trainset)) demos |
| Vanilla.LabeledPrefix | src/optiglot/optimizers/vanilla.py:61-62 | without sampling the demos are `trainset[:min(k, len(trainset))]` in trainset order, including Python's negative-slice case |
| Vanilla.LabeledSampleDistinctPositions | src/optiglot/optimizers/vanilla.py:53-60 | with sampling each predictor's demos come from distinct positions of the trainset |
| Vanilla.LabeledFewShot.constructor | src/optiglot/optimizers/vanilla.py:24-25 | stores k and starts with no student |
| Vanilla.LabeledFewShot.Compile | src/optiglot/optimizers/vanilla.py:27-64 | ValueError exactly when sampling a non-empty trainset with k < 0 for a student with a predictor, and then the stored student is still the reset copy; otherwise a new reset copy filled with the labelled demos of a generator seeded with 0; the sets are stored and the caller's student is unchanged |
| Vanilla.FillDemos | src/optiglot/optimizers/vanilla.py:53-62 | predictor by predictor, one generator advancing across predictors, the demos become the labelled demos; fails exactly on a negative sample size, and then before any predictor changed |
| Vanilla.LabeledCopy | src/optiglot/optimizers/vanilla.py:46-64 | a new reset copy sharing no predictor; an empty trainset leaves it reset; ValueError exactly for a negative sample size with a predictor, leaving it reset; otherwise its value is the labelled compile; the caller's student is unchanged |
| Vanilla.LabelOne | src/optiglot/optimizers/vanilla.py:55-62 | one predictor's demos become its labelled demos, the generator advancing by the sample size; a negative sample size raises ValueError and changes nothing |
| Vanilla.LabeledDemos | src/optiglot/optimizers/vanilla.py:53-62 | definition: predictor i's demos, the i-th sample of min(k, len) from the one generator or the first min(k, len) examples; its properties are stated by LabeledDemoCount, LabeledPrefix and LabeledSampleDistinctPositions |
| Vanilla.Labeled | src/optiglot/optimizers/vanilla.py:46-64 | definition: the compiled program, each predictor with its signature, its labelled demos and no LM; its properties are stated by LabeledKeepsStructure, LabeledOfEmpty, LabeledFromParts and LabeledOfReset |
| BootstrapRules.LmForRoundCases | src/optiglot/optimizers/bootstrap.py:195-204 | round 0 sends `teacher_lm` unchanged; a later round sends a copy with rollout id = round and temperature 1.0 and the same model and model type; no `teacher_lm` means no override in every round |
| BootstrapRules.LmForRoundDistinct | src/optiglot/optimizers/bootstrap.py:196-200 | two different retry rounds never send the same LM |
| BootstrapRules.LmForRound | src/optiglot/optimizers/bootstrap.py:195-204 | definition: the LM of a round; stated by LmForRoundCases and LmForRoundDistinct |
| BootstrapRules.Without | src/optiglot/optimizers/bootstrap.py:191 | the filtered demos hold no copy of the example and every other demo as often as before |
| BootstrapRules.Strip | src/optiglot/optimizers/bootstrap.py:189-191 | the stripped teacher keeps the names in order and one predictor per name |
| BootstrapRules.StripNoLeak | src/optiglot/optimizers/bootstrap.py:189-191 | the teacher copy has the teacher's structure and LMs, no predictor shows the example, and every other demo is kept as often as before |
| BootstrapRules.Validate | src/optiglot/optimizers/bootstrap.py:214-240 | a response is accepted exactly when it has one result with a score that passes (>= threshold, or > 0 without one) and a non-empty trace; a wrong result count or a missing score is rejected as such |
| BootstrapRules.Passes | src/optiglot/optimizers/bootstrap.py:226-231 | definition: score >= threshold, or score > 0 without a threshold; used by Validate |
| BootstrapRules.Chosen | src/optiglot/optimizers/bootstrap.py:259-272 | the demo kept for a predictor is one of its demos from this trace, its only one when there is one |
| BootstrapRules.DemoOf | src/optiglot/optimizers/bootstrap.py:249-252 | definition: the demo of a trace step, its inputs and its output |
| BootstrapRules.Keys | src/optiglot/optimizers/bootstrap.py:243-253 | definition: the keys of `name2demos` in insertion order; stated by KeysMatchDemos |
| BootstrapRules.DemosFor | src/optiglot/optimizers/bootstrap.py:243-253 | definition: one predictor's grouped demos; stated by DemosForSteps |
| BootstrapRules.Groups | src/optiglot/optimizers/bootstrap.py:243-253 | definition: `name2demos`; GroupTrace is proved to build it |
| BootstrapRules.KeysMatchDemos | src/optiglot/optimizers/bootstrap.py:243-253 | each predictor name is a key of `name2demos` once, and a name is a key exactly when some step of it has a truthy output |
| BootstrapRules.DemosForSteps | src/optiglot/optimizers/bootstrap.py:243-253 | a predictor's grouped demos are exactly the demos of its steps with a truthy output |
| BootstrapRules.RecordKeepsNames | src/optiglot/optimizers/bootstrap.py:255-274 | recording never adds or removes a predictor name of `name2traces` |
| BootstrapRules.RecordComplete | src/optiglot/optimizers/bootstrap.py:255-274 | no KeyError exactly when every grouped name has an entry; then each of them gets exactly its chosen demo appended and every other entry is unchanged |
| BootstrapRules.RecordMissing | src/optiglot/optimizers/bootstrap.py:255-274 | a KeyError names the first name without an entry; the names before it had entries and their demos are already appended |
| BootstrapRules.RecordAfterMissing | src/optiglot/optimizers/bootstrap.py:256-272 | once a KeyError is raised, the names after it are not looked at |
| BootstrapRules.RecordAllPresent | src/optiglot/optimizers/bootstrap.py:256-272 | without a KeyError every recorded name had an entry |
| BootstrapRules.RecordAppendsAtMostOne | src/optiglot/optimizers/bootstrap.py:255-274 | each entry is unchanged or has exactly its chosen demo appended |
| BootstrapRules.Record | src/optiglot/optimizers/bootstrap.py:255-274 | definition: the appends of the recording loop and the first name that raises KeyError; stated by RecordKeepsNames, RecordComplete, RecordMissing, RecordAfterMissing, RecordAllPresent and RecordAppendsAtMostOne |
| BootstrapRules.Raised | src/optiglot/optimizers/bootstrap.py:276-285 | definition: the handler: one more error, re-raised once a set budget is reached, else False |
| BootstrapRules.Attempt | src/optiglot/optimizers/bootstrap.py:214-285 | definition: the effect of one answer on the result, `name2traces` and `error_count`; stated by AttemptErrorBudget, AttemptAppendsAtMostOne, AttemptSoftFailure and AttemptSuccess |
| BootstrapRules.AttemptErrorBudget | src/optiglot/optimizers/bootstrap.py:276-285 | every exception adds exactly one to `error_count`; the attempt raises exactly when a budget is set and the new count reaches it, and what it raises is the evaluator's exception or a KeyError |
| BootstrapRules.AttemptAppendsAtMostOne | src/optiglot/optimizers/bootstrap.py:214-285 | whatever the outcome, the names of `name2traces` are kept and each list grows by at most one demo at its end |
| BootstrapRules.AttemptSoftFailure | src/optiglot/optimizers/bootstrap.py:214-240 | a rejected answer returns False with nothing recorded and nothing counted |
| BootstrapRules.AttemptSuccess | src/optiglot/optimizers/bootstrap.py:242-274 | a True attempt had an accepted trace; each name with a truthy step got exactly one appended demo, one of its own demos from that trace; every other entry is unchanged |
| BootstrapRules.UnbootstrappedAgrees | src/optiglot/optimizers/bootstrap.py:163-165 | the filter only depends on which in-range indices were bootstrapped |
| BootstrapRules.UnbootstrappedSize | src/optiglot/optimizers/bootstrap.py:163-165 | the examples that did not pass number len(trainset) - len(bootstrapped) and are a sub-multiset of the trainset |
| BootstrapRules.Unbootstrapped | src/optiglot/optimizers/bootstrap.py:163-165 | definition: the examples whose index did not pass, in order; stated by UnbootstrappedAgrees and UnbootstrappedSize |
| BootstrapRules.ValidationPool | src/optiglot/optimizers/bootstrap.py:162-166 | definition: those examples shuffled by a generator seeded with 0; stated by ValidationPoolContents |
| BootstrapRules.ValidationPoolContents | src/optiglot/optimizers/bootstrap.py:162-166 | the validation pool is a permutation of exactly the examples that did not pass, of length len(trainset) - len(bootstrapped) |
| BootstrapRules.Trained | src/optiglot/optimizers/bootstrap.py:307 | the trained program keeps the names, order and number of predictors |
| BootstrapRules.TrainedFromParts | src/optiglot/optimizers/bootstrap.py:292-307 | a program whose every predictor keeps its signature and LM and holds its planned demos is the trained program |
| BootstrapRules.SampleSize | src/optiglot/optimizers/bootstrap.py:299-301 | the labelled sample size never exceeds the pool |
| BootstrapRules.Augmented | src/optiglot/optimizers/bootstrap.py:294-296 | definition: `name2traces.get(name, [])[:max_bootstrapped_demos]`; used by TrainPlanStep and TrainPlanBounds |
| BootstrapRules.GeneratorSamplerOf | src/optiglot/optimizers/bootstrap.py:304 | the generator's sampler is `random.sample` on its draws |
| BootstrapRules.GeneratorDrawsWithoutReplacement | src/optiglot/optimizers/bootstrap.py:304 | the generator's sampler draws exactly n demos, each from its own position of the pool |
| BootstrapRules.TrainPlan | src/optiglot/optimizers/bootstrap.py:289-307 | one plan per predictor |
| BootstrapRules.TrainPlanStep | src/optiglot/optimizers/bootstrap.py:289-307 | predictor i's bootstrapped part is its traces cut at `max_bootstrapped_demos`; its labelled part is a sample of clamp(max_labeled - len(augmented), 0, len(pool)) demos; its pool is the validation pool for the first predictor and the previous draw after it, and the generator continues where the previous draw left it |
| BootstrapRules.TrainPlanLink | src/optiglot/optimizers/bootstrap.py:293-304 | one step of the loop: predictor i's parts and where the next predictor's pool and draws start |
| BootstrapRules.TrainPlanBounds | src/optiglot/optimizers/bootstrap.py:294-307 | each pool is a sub-multiset of the one before and of the validation pool; with a non-negative `max_bootstrapped_demos` the bootstrapped part is at most that and the demos at most max(max_bootstrapped, max_labeled) |
| BootstrapRules.TrainedDemoBound | src/optiglot/optimizers/bootstrap.py:287-314 | with a non-negative `max_bootstrapped_demos`, no trained predictor has more than max(max_bootstrapped, max_labeled) demos |
| BootstrapLoop.ValidJudge | src/optiglot/optimizers/bootstrap.py:214-285 | a judge that is `Attempt` keeps the names of `name2traces`, appends at most one demo per list, never lowers the error count and raises only once the budget is reached |
| BootstrapLoop.Rounds | src/optiglot/optimizers/bootstrap.py:156-160 | definition: the rounds loop for one example on the service's answers, ending at the first round that passes or raises |
| BootstrapLoop.RoundsLog | src/optiglot/optimizers/bootstrap.py:156-212 | the log only grows: by every remaining round when none passes or raises, by at least one otherwise; each request is the stripped teacher on the example with a round's LM |
| BootstrapLoop.RoundsTraces | src/optiglot/optimizers/bootstrap.py:156-160 | the names of `name2traces` are kept and each list only grows at its end, by at most one demo per round tried |
| BootstrapLoop.RoundsErrors | src/optiglot/optimizers/bootstrap.py:156-160 | the error count never drops, and an exception that ends the loop means the budget was reached |
| BootstrapLoop.RoundsPassed | src/optiglot/optimizers/bootstrap.py:156-160 | an example passes only when the last request sent for it got an answer that Validate accepts |
| BootstrapLoop.Upto | src/optiglot/optimizers/bootstrap.py:151-160 | definition: the examples loop after its first n examples |
| BootstrapLoop.Step | src/optiglot/optimizers/bootstrap.py:152-160 | definition: one turn of the examples loop on a running state |
| BootstrapLoop.Passed | src/optiglot/optimizers/bootstrap.py:151-160 | definition: example i was reached with the loop running and below the cap, and one of its rounds passed |
| BootstrapLoop.UptoStays | src/optiglot/optimizers/bootstrap.py:152-153 | once the loop raised or broke off, later examples change nothing |
| BootstrapLoop.UptoMarks | src/optiglot/optimizers/bootstrap.py:151-160 | the passed indices are below n and there are at most max(0, max_bootstrapped_demos) of them |
| BootstrapLoop.UptoBootstrapped | src/optiglot/optimizers/bootstrap.py:151-160 | an index is in `bootstrapped` exactly when that example was reached and one of its rounds passed (`Passed`) |
| BootstrapLoop.UptoLog | src/optiglot/optimizers/bootstrap.py:151-160 | the log only grows, by at most `max_rounds` requests per example, each one of the loop's requests |
| BootstrapLoop.UptoTraces | src/optiglot/optimizers/bootstrap.py:151-160 | the names of `name2traces` are kept and each list grows only at its end, by at most one demo per request sent |
| BootstrapLoop.UptoErrors | src/optiglot/optimizers/bootstrap.py:151-160 | the error count never drops, and a loop that raised had reached the budget |
| BootstrapLoop.Examples | src/optiglot/optimizers/bootstrap.py:151-160 | definition: the rest of the examples loop from example idx, as the method runs it |
| BootstrapLoop.ExamplesUpto | src/optiglot/optimizers/bootstrap.py:151-160 | running the rest of the loop from the state after n examples ends in the state after all of them |
| BootstrapLoop.EmptyTraces | src/optiglot/optimizers/bootstrap.py:146-149 | exactly the predictor names as keys, each with an empty list |
| BootstrapLoop.FinishedBounds | src/optiglot/optimizers/bootstrap.py:140-160 | after the loop: passed indices in range and at most max(0, max_bootstrapped_demos); at most len(trainset) * max(0, max_rounds) requests, each one of the loop's; `name2traces` has exactly the predictor names, each list at most one demo per request; an exception means the budget was reached |
| BootstrapLoop.SentNoLeak | src/optiglot/optimizers/bootstrap.py:189-212 | every request of the loop sends one program with the teacher's structure in which no predictor shows the request's example |
| Bootstrap.CopyWithout | src/optiglot/optimizers/bootstrap.py:189-191 | a new teacher copy, sharing no predictor, whose value is the teacher stripped of the example; the teacher is not changed |
| Bootstrap.GroupTrace | src/optiglot/optimizers/bootstrap.py:243-253 | the loop builds `name2demos` as grouped by predictor, with keys in first-occurrence order |
| Bootstrap.TrainOne | src/optiglot/optimizers/bootstrap.py:293-307 | the predictor keeps its signature and LM and gets its bootstrapped prefix then a sample of the pool of the planned size; that sample is the next pool |
| Bootstrap.FillFromPlan | src/optiglot/optimizers/bootstrap.py:289-307 | after the loop the student's value is the trained program of the plan |
| Bootstrap.ShufflePool | src/optiglot/optimizers/bootstrap.py:162-166 | the pool is the examples that did not pass, shuffled by a generator seeded with 0 |
| Bootstrap.TeacherFor | src/optiglot/optimizers/bootstrap.py:101-109 | a new teacher, sharing no predictor with the student, with its names and order; its value is the student's, or with a positive `max_labeled_demos` its labelled compile |
| Bootstrap.TeacherProgram | src/optiglot/optimizers/bootstrap.py:101-109 | definition: the student's program, or with a positive `max_labeled_demos` its labelled compile with sampling; TeacherFor and StructureChecksPass state what it is used for |
| Bootstrap.StructureChecksPass | src/optiglot/optimizers/bootstrap.py:111-129 | the reset student and the teacher always have the same names in order and equal signatures, so the asserts pass |
| Bootstrap.BootstrapFewShot.constructor | src/optiglot/optimizers/bootstrap.py:30-64 | stores the configuration, `teacher_settings` defaulting to `{}`, with `error_count` 0 |
| Bootstrap.BootstrapFewShot.PrepareStudentAndTeacher | src/optiglot/optimizers/bootstrap.py:97-109 | the student becomes a new reset copy and the teacher a new object, disjoint from it, whose value is the teacher program; the caller's student is unchanged |
| Bootstrap.BootstrapFewShot.PreparePredictorMappings | src/optiglot/optimizers/bootstrap.py:111-138 | AssertionError exactly when the predictor counts, names in order or signatures differ, and then nothing is stored; otherwise `name2predictor` has the names in order, and `predictor2name` maps every name to itself |
| Bootstrap.BootstrapFewShot.CountError | src/optiglot/optimizers/bootstrap.py:276-285 | the count goes up by one; the error is raised again exactly when a budget is set and reached, otherwise False |
| Bootstrap.BootstrapFewShot.RecordDemos | src/optiglot/optimizers/bootstrap.py:255-274 | the loop appends the chosen demos as `Record` does; a missing name counts a KeyError against the budget |
| Bootstrap.BootstrapFewShot.BootstrapOneExample | src/optiglot/optimizers/bootstrap.py:173-212 | exactly one request is sent: the teacher stripped of the example, traced, on that example, with the round's LM; the effect is `Attempt` of the service's answer |
| Bootstrap.BootstrapFewShot.Judge | src/optiglot/optimizers/bootstrap.py:214-285 | result, `name2traces` and `error_count` after the answer are exactly those `Attempt` gives |
| Bootstrap.BootstrapFewShot.TryExample | src/optiglot/optimizers/bootstrap.py:155-160 | the result, log, `name2traces` and `error_count` are exactly those of `Rounds` on the service's answers: the first round that passes or raises ends the loop; one request per round tried |
| Bootstrap.BootstrapFewShot.BootstrapExamples | src/optiglot/optimizers/bootstrap.py:151-160 | the outcome, the passed indices, the log, `name2traces` and `error_count` are exactly those of `Upto` over the whole trainset; one request per attempt; unless it raised, `example_idx` is bound exactly for a non-empty trainset |
| Bootstrap.BootstrapFewShot.ExampleTurn | src/optiglot/optimizers/bootstrap.py:152-160 | one `Step` of the examples loop: it breaks off once `max_bootstrapped_demos` examples passed; otherwise it tries the example, marks it when a round passed and raises when an attempt raised |
| Bootstrap.BootstrapFewShot.Bootstrap | src/optiglot/optimizers/bootstrap.py:140-171 | `name2traces` starts with an empty list per predictor name and the state after the loop is exactly `Finished`'s; an empty trainset raises UnboundLocalError after the pool is set; otherwise the outcome is the loop's, and unless the loop raised the validation pool is the shuffled examples that did not pass |
| Bootstrap.BootstrapFewShot.Prepare | src/optiglot/optimizers/bootstrap.py:86-90 | the sets are stored, the student and teacher are prepared and `name2predictor` is the student's names |
| Bootstrap.BootstrapFewShot.BootstrapAndTrain | src/optiglot/optimizers/bootstrap.py:91-95 | the teacher is not modified; the log, `name2traces`, `error_count` and the passed examples are exactly `Finished`'s; success exactly for a non-empty trainset whose loop did not raise; the loop's bounds; on success the student trained by the plan |
| Bootstrap.BootstrapFewShot.Compile | src/optiglot/optimizers/bootstrap.py:66-95 | the caller's student is unchanged; the teacher is the teacher program; the passed examples, the log, `name2traces` and `error_count` are exactly those of the examples loop on the service's answers (`Finished`); every request strips its example from the teacher; at most len(trainset) * max(0, max_rounds) requests; success exactly for a non-empty trainset whose loop did not raise; an empty trainset raises UnboundLocalError, another failure means the budget was reached; on success a new student with the caller's names whose value is the reset student trained with `name2traces` and the validation pool of the examples that did not pass |
| Bootstrap.BootstrapFewShot.Train | src/optiglot/optimizers/bootstrap.py:287-314 | the stored student is returned, its value trained by the plan with a generator seeded with 0; the teacher is not modified |
| DemoSets.StrategyOf | src/optiglot/utils.py:199-255 | set -3 is zero-shot exactly with `include_non_bootstrapped`; set -2 is labels-only exactly with it and a positive `max_labeled_demos`; set -1 is the unshuffled bootstrap; every other set, including a special set whose condition fails, is a shuffled bootstrap |
| DemoSets.CompileBootstrapped | src/optiglot/utils.py:219-232 | the caller's student is unchanged; it raises exactly for an empty trainset, with UnboundLocalError; a compiled set keeps the names and has at most max(size, max_labeled) demos per predictor; every request runs the stripped teacher on a trainset example |
| DemoSets.CandidateProgram | src/optiglot/utils.py:199-255 | the compiled set is as its branch says; only the shuffled branch draws; it raises exactly when `Fails`: the unshuffled bootstrap of an empty trainset, or a shuffled set with an empty trainset or min_num_samples > max_bootstrapped_demos (ValueError) |
| DemoSets.AddColumn | src/optiglot/utils.py:257-259 | every predictor's list gets that predictor's demos appended, and no key is added |
| DemoSets.NoColumns | src/optiglot/utils.py:186-189 | one empty list for each predictor index 0..P-1 and no other key |
| DemoSets.ColumnsGrow | src/optiglot/utils.py:257-259 | appending a set's demos as a new column keeps every earlier column, so column t still holds set t's demos |
| DemoSets.Fails | src/optiglot/utils.py:199-255 | definition: the branches that raise, a bootstrap on an empty trainset and a shuffled set whose size range is empty; CandidateProgram and CreateNFewshotDemoSets are proved to raise exactly then |
| DemoSets.CreateNFewshotDemoSets | src/optiglot/utils.py:128-261 | raises exactly when some set number in -3 .. num_candidate_sets - 4 `Fails`; otherwise keys are 0..P-1 for P predictors, each list has max(0, num_candidate_sets) entries, entry t being predictor i's demos in set t, and each set meets its branch's description; the caller's student is unchanged |
| DemoSets.ZeroShotFirst | src/optiglot/utils.py:201-203 | with `include_non_bootstrapped` and at least one set, every predictor's first candidate is empty |
| DemoSets.LabelsOnlySecond | src/optiglot/utils.py:205-214 | with the labels-only set built, every predictor's second candidate is its labelled demos |
| DemoSets.ShuffledSizesInRange | src/optiglot/utils.py:237-238 | every shuffled set was compiled with a size in [min_num_samples, max_bootstrapped_demos] |

## Left out

- `Evaluator.evaluate`: the HTTP POST, the status check, the payload parsing and the local-harness hook are one abstract service function. Its error result stands for any raised exception. `evaluate` wraps a single module into a list; the model's `Evaluate` takes the list, and `EvalCandidateProgram` does the wrapping.
- `optimizers/teleprompt.py`, `settings.py` and `optimizers/__init__.py` are not part of this model. They hold an abstract base, a network POST, environment configuration and re-exports.
- Python's Mersenne Twister and `_randbelow`: a raw draw reduced modulo the range stands for the rejection sampling. Draw counts follow the library's algorithm, not its bit-exact output.
- The set-based branch of `random.sample` for large populations is not modelled; the pool-based branch is.
- The MD5 hash and `json.dumps` of the tie-break are the oracle `tieBreak`.
- The `threading.Lock` around `error_count` is dropped; the loop is sequential.
- Logging, `tqdm` and the summary `print` are left out, except for the UnboundLocalError that the print raises on an empty trainset.
- Scores are `real`: NaN and float rounding are not modelled.
- The error fields and feedback of a prediction, and the pydantic aliases, are not modelled.
- `random.shuffle` works in place in the source; the model's `Shuffle` returns the shuffled list and the caller stores it.
- The caller's trainset is a value, so the fact that `create_n_fewshot_demo_sets` never reorders it holds by construction and is not stated as a contract.
- The `evaluator` argument of `LabeledFewShot` is not modelled; it is stored and never read.
- The `teacher_settings` field is stored and never read.
- The `teacher=` keyword from `create_n_fewshot_demo_sets` is not a parameter, since `compile` ignores it.
- `named_predictors[name]` lookups in `create_n_fewshot_demo_sets` and `_train` are positional. Every compiled program has the student's names in the student's order.
- DemoSets.CreateNFewshotDemoSets: for bootstrapped sets it states the structure, the size range and the demo-count bound, not the exact demos. Each such set is one call of Bootstrap.BootstrapFewShot.Compile, whose contract gives its exact demos from the service's answers; restating that per set would repeat Compile's contract.
- DemoSets.CompileBootstrapped: it states the demo-count bound and the requests sent, not the exact trained program, which is Bootstrap.BootstrapFewShot.Compile's.
- BootstrapRules.Without and BootstrapRules.Strip: `demo != example` is Python equality, under which `True == 1 == 1.0` and `False == 0`. The model compares JSON values structurally, so a demo that differs from the example only in such a number or boolean is kept by the model where Python drops it.
- Models.Module.Valid: it asks for distinct predictor objects. A module in which two names share one predictor object is not modelled; writing demos through one name would change the other.
