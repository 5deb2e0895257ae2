/**
 * The evaluator boundary and the evaluation helpers of src/optiglot/utils.py:
 * `Evaluator`, `create_minibatch` and `eval_candidate_program`.
 */
module Evaluation {
  import opened Wrappers
  import opened Lists
  import opened Models
  import opened Rand

  /**
   * The execution service, or a local harness standing in for it: its answer to a
   * request, which may depend on every request sent before. An `Error` result is a
   * raised exception (transport failure, non-success status, payload that does not parse).
   */
  type Service = (seq<RolloutRequest>, RolloutRequest) -> Result<RolloutResponse, Error>

  class Evaluator {
    const respond: Service
    /** Every request sent so far, oldest first. */
    var log: seq<RolloutRequest>

    constructor (respond: Service)
      ensures this.respond == respond && log == []
    {
      this.respond := respond;
      log := [];
    }

    /** `Evaluator.evaluate`: one request to the service; its response, or the exception it raised. */
    method Evaluate(candidates: seq<Program>, devset: seq<Dict>, trace: bool, lm: Option<LM>)
      returns (r: Result<RolloutResponse, Error>)
      modifies this
      ensures log == old(log) + [RolloutRequest(candidates, devset, trace, lm)]
      ensures r == respond(old(log), RolloutRequest(candidates, devset, trace, lm))
    {
      var request := RolloutRequest(candidates, devset, trace, lm);
      r := respond(log, request);
      log := log + [request];
    }
  }

  /** Every index lies below n. */
  predicate Below(indices: seq<nat>, n: nat) {
    forall t :: 0 <= t < |indices| ==> indices[t] < n
  }

  /** `[xs[i] for i in indices]`. */
  function Pick<T>(xs: seq<T>, indices: seq<nat>): (r: seq<T>)
    requires Below(indices, |xs|)
    ensures |r| == |indices|
    ensures forall t :: 0 <= t < |indices| ==> r[t] == xs[indices[t]]
  {
    seq(|indices|, t requires 0 <= t < |indices| => xs[indices[t]])
  }

  lemma PickTakeOut<T>(xs: seq<T>, indices: seq<nat>, j: nat)
    requires Below(indices, |xs|) && j < |indices|
    ensures Below(TakeOut(indices, j), |xs|) && Pick(xs, TakeOut(indices, j)) == TakeOut(Pick(xs, indices), j)
  {
    var n := |indices|;
    assert TakeOut(indices, j) == indices[j := indices[n - 1]][..n - 1];
    assert TakeOut(Pick(xs, indices), j) == Pick(xs, indices)[j := Pick(xs, indices)[n - 1]][..n - 1];
  }

  /** Positions sampled from positions below n are below n. */
  lemma {:induction false} SampleBelow(indices: seq<nat>, n: nat, k: nat, draws: nat -> nat, at: nat)
    requires Below(indices, n) && k <= |indices|
    ensures Below(SampleFrom(indices, k, draws, at), n)
    decreases k
  {
    if k > 0 {
      var j := draws(at) % |indices|;
      var rest := TakeOut(indices, j);
      SampleBelow(rest, n, k - 1, draws, at + 1);
      SampleUnfold(indices, k, draws, at);
    }
  }

  /** Sampling positions and then looking them up is sampling the looked-up elements. */
  lemma {:induction false} SampleCommutesWithPick<T>(xs: seq<T>, indices: seq<nat>, k: nat, draws: nat -> nat, at: nat)
    requires Below(indices, |xs|) && k <= |indices|
    ensures Below(SampleFrom(indices, k, draws, at), |xs|)
    ensures Pick(xs, SampleFrom(indices, k, draws, at)) == SampleFrom(Pick(xs, indices), k, draws, at)
    decreases k
  {
    SampleBelow(indices, |xs|, k, draws, at);
    if k > 0 {
      var j := draws(at) % |indices|;
      var rest := TakeOut(indices, j);
      var tail := SampleFrom(rest, k - 1, draws, at + 1);
      PickTakeOut(xs, indices, j);
      SampleCommutesWithPick(xs, rest, k - 1, draws, at + 1);
      SampleUnfold(indices, k, draws, at);
      SampleUnfold(Pick(xs, indices), k, draws, at);
      PickCons(xs, indices[j], tail);
    }
  }

  lemma SampleUnfold<T>(pool: seq<T>, k: nat, draws: nat -> nat, at: nat)
    requires 0 < k <= |pool|
    ensures SampleFrom(pool, k, draws, at) ==
            [pool[draws(at) % |pool|]] + SampleFrom(TakeOut(pool, draws(at) % |pool|), k - 1, draws, at + 1)
  {
  }

  lemma PickCons<T>(xs: seq<T>, i: nat, tail: seq<nat>)
    requires i < |xs| && Below(tail, |xs|)
    ensures Below([i] + tail, |xs|) && Pick(xs, [i] + tail) == [xs[i]] + Pick(xs, tail)
  {
  }

  /**
   * `create_minibatch`: `min(batch_size, len(trainset))` examples taken from distinct
   * positions of the trainset; a negative size makes `sample` raise ValueError.
   * `rng` is the caller's generator, or the module-level one when it passes none.
   */
  method CreateMinibatch(trainset: seq<Dict>, batchSize: int, rng: Random) returns (r: Result<seq<Dict>, Error>)
    modifies rng
    ensures r.Success? <==> 0 <= batchSize
    ensures r.Failure? ==> r.error.ValueError?
    ensures r.Success? ==> |r.value| == Min(batchSize, |trainset|) && multiset(r.value) <= multiset(trainset)
    ensures r.Success? ==> r.value == SampleFrom(trainset, Min(batchSize, |trainset|), rng.draws, old(rng.used))
  {
    var size := Min(batchSize, |trainset|);
    var sampled := rng.Sample(Range(|trainset|), size);
    if sampled.Failure? {
      return Failure(sampled.error);
    }
    SampleCommutesWithPick(trainset, Range(|trainset|), size, rng.draws, old(rng.used));
    SampleFromSubMultiset(trainset, size, rng.draws, old(rng.used));
    assert Pick(trainset, Range(|trainset|)) == trainset;
    r := Success(Pick(trainset, sampled.value));
  }

  /**
   * `eval_candidate_program`: the whole trainset when the batch size covers it,
   * otherwise a minibatch of exactly `batch_size` examples (ValueError when negative).
   */
  method EvalCandidateProgram(batchSize: int, trainset: seq<Dict>, candidate: Module, evaluator: Evaluator, rng: Random)
    returns (r: Result<RolloutResponse, Error>)
    requires candidate.Valid()
    modifies evaluator, rng
    ensures |trainset| <= batchSize ==>
              rng.used == old(rng.used) &&
              evaluator.log == old(evaluator.log) + [RolloutRequest([candidate.Value()], trainset, false, None)]
    ensures 0 <= batchSize < |trainset| ==>
              var batch := SampleFrom(trainset, batchSize, rng.draws, old(rng.used));
              |batch| == batchSize && multiset(batch) <= multiset(trainset) &&
              evaluator.log == old(evaluator.log) + [RolloutRequest([candidate.Value()], batch, false, None)]
    ensures batchSize < 0 ==> r.Failure? && r.error.ValueError? && evaluator.log == old(evaluator.log)
    ensures 0 <= batchSize ==> r == evaluator.respond(old(evaluator.log), evaluator.log[|evaluator.log| - 1])
  {
    if |trainset| <= batchSize {
      r := evaluator.Evaluate([candidate.Value()], trainset, false, None);
      return;
    }
    var batch := CreateMinibatch(trainset, batchSize, rng);
    if batch.Failure? {
      return Failure(batch.error);
    }
    r := evaluator.Evaluate([candidate.Value()], batch.value, false, None);
  }
}
