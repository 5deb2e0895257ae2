/**
 * `LabeledFewShot` (src/optiglot/optimizers/vanilla.py): every predictor of a reset
 * copy of the student gets up to k raw training examples as its demos, either the
 * first k or a sample drawn without replacement from a generator seeded with 0.
 */
module Vanilla {
  import opened Wrappers
  import opened Lists
  import opened Models
  import opened Rand

  /**
   * The demos that predictor number i receives. One generator serves every
   * predictor in turn, so the i-th sample starts after the draws of the i before it.
   * Sampling with k < 0 raises before any predictor is given demos, so that case
   * never reaches a compiled program.
   */
  function LabeledDemos(trainset: seq<Dict>, k: int, sample: bool, draws: nat -> nat, i: nat): seq<Dict>
  {
    if |trainset| == 0 then []
    else if sample then
      if k < 0 then [] else SampleFrom(trainset, Min(k, |trainset|), draws, i * Min(k, |trainset|))
    else Prefix(trainset, Min(k, |trainset|))
  }

  /** The program that a successful compile returns, given the student's program. */
  function Labeled(p: Program, trainset: seq<Dict>, k: int, sample: bool, draws: nat -> nat): (q: Program)
  {
    Program(p.order, seq(|p.predictors|, i requires 0 <= i < |p.predictors| =>
      PredictValue(p.predictors[i].signature, LabeledDemos(trainset, k, sample, draws, i), None)))
  }

  /** The compiled program has the student's names, order and signatures, and no LM override. */
  lemma LabeledKeepsStructure(p: Program, trainset: seq<Dict>, k: int, sample: bool, draws: nat -> nat)
    requires p.WellFormed()
    ensures Labeled(p, trainset, k, sample, draws).WellFormed()
    ensures Compatible(Labeled(p, trainset, k, sample, draws), p)
    ensures forall i :: 0 <= i < |p.predictors| ==> Labeled(p, trainset, k, sample, draws).predictors[i].lm == None
  {
  }

  /** With an empty trainset the result is the reset copy: no demos anywhere. */
  lemma LabeledOfEmpty(p: Program, k: int, sample: bool, draws: nat -> nat)
    ensures Labeled(p, [], k, sample, draws) == p.Reset()
  {
  }

  /** A program whose every predictor holds its signature and its labelled demos is the compiled program. */
  lemma LabeledFromParts(p: Program, q: Program, trainset: seq<Dict>, k: int, sample: bool, draws: nat -> nat)
    requires q.order == p.order && |q.predictors| == |p.predictors|
    requires forall j :: 0 <= j < |p.predictors| ==>
               q.predictors[j].signature == p.predictors[j].signature &&
               q.predictors[j].demos == LabeledDemos(trainset, k, sample, draws, j)
    requires forall j :: 0 <= j < |p.predictors| ==> q.predictors[j].lm == None
    ensures q == Labeled(p, trainset, k, sample, draws)
  {
  }

  /** Only the signatures of the student matter: compiling its reset copy gives the same program. */
  lemma LabeledOfReset(p: Program, trainset: seq<Dict>, k: int, sample: bool, draws: nat -> nat)
    ensures Labeled(p.Reset(), trainset, k, sample, draws) == Labeled(p, trainset, k, sample, draws)
  {
  }

  /** With a non-negative k every predictor gets exactly min(k, |trainset|) demos. */
  lemma LabeledDemoCount(trainset: seq<Dict>, k: int, sample: bool, draws: nat -> nat, i: nat)
    requires 0 <= k
    ensures |LabeledDemos(trainset, k, sample, draws, i)| == Min(k, |trainset|)
  {
  }

  /** Without sampling the demos are the leading examples, in trainset order. */
  lemma LabeledPrefix(trainset: seq<Dict>, k: int, draws: nat -> nat, i: nat)
    ensures 0 <= k ==> LabeledDemos(trainset, k, false, draws, i) == trainset[..Min(k, |trainset|)]
    ensures k < 0 ==> LabeledDemos(trainset, k, false, draws, i) == trainset[..Max(0, |trainset| + k)]
  {
  }

  /** With sampling the demos come from distinct positions of the trainset. */
  lemma LabeledSampleDistinctPositions(trainset: seq<Dict>, k: int, draws: nat -> nat, i: nat)
    requires 0 <= k
    ensures multiset(LabeledDemos(trainset, k, true, draws, i)) <= multiset(trainset)
  {
    if |trainset| > 0 {
      SampleFromSubMultiset(trainset, Min(k, |trainset|), draws, i * Min(k, |trainset|));
    }
  }

  class LabeledFewShot {
    const k: int
    /** The generator family: `random.Random(seed)` draws from `source(seed)`. */
    const source: Source
    var student: Module?
    var trainset: seq<Dict>
    var valset: Option<seq<Dict>>

    /** `LabeledFewShot(k)`. */
    constructor (k: int, source: Source)
      ensures this.k == k && this.source == source && student == null
    {
      this.k := k;
      this.source := source;
      student := null;
      trainset := [];
      valset := None;
    }

    /**
     * `LabeledFewShot.compile`. A sample of negative size raises ValueError, which
     * happens exactly when sampling from a non-empty trainset with k < 0 for a
     * student with at least one predictor. The caller's student is left as it was.
     */
    method Compile(student: Module, trainset: seq<Dict>, valset: Option<seq<Dict>>, sample: bool)
      returns (r: Result<Module, Error>)
      requires student.Valid()
      modifies this
      ensures this.trainset == trainset && this.valset == valset
      ensures this.student != null && fresh(this.student) && this.student.Valid()
      ensures forall i :: 0 <= i < |this.student.preds| ==> fresh(this.student.preds[i])
      ensures r.Failure? <==> sample && |trainset| > 0 && k < 0 && |student.order| > 0
      ensures r.Failure? ==> r.error.ValueError? && this.student.Value() == student.Value().Reset()
      ensures student.Value() == old(student.Value())
      ensures r.Success? ==>
                r.value == this.student &&
                r.value.Value() == Labeled(student.Value(), trainset, k, sample, source(0))
    {
      var c, filled := LabeledCopy(student, trainset, k, sample, source);
      this.student := c;
      this.trainset := trainset;
      this.valset := valset;
      r := if filled.Fail? then Failure(filled.error) else Success(c);
    }
  }

  /**
   * The body of `LabeledFewShot.compile` after its settings are stored: a reset copy
   * of the student, filled with labelled demos when the trainset is not empty.
   */
  method LabeledCopy(student: Module, trainset: seq<Dict>, k: int, sample: bool, source: Source)
    returns (c: Module, r: Outcome<Error>)
    requires student.Valid()
    ensures fresh(c) && c.Valid() && forall i :: 0 <= i < |c.preds| ==> fresh(c.preds[i])
    ensures r.Fail? <==> sample && |trainset| > 0 && k < 0 && |student.order| > 0
    ensures r.Fail? ==> r.error.ValueError? && c.Value() == student.Value().Reset()
    ensures student.Value() == old(student.Value())
    ensures r.Pass? ==> c.Value() == Labeled(student.Value(), trainset, k, sample, source(0))
  {
    ghost var caller := student.Value();
    c := student.ResetCopy();
    r := Pass;
    if |trainset| == 0 {
      LabeledOfEmpty(caller, k, sample, source(0));
    } else {
      var rng := new Random(source, 0);
      r := FillDemos(c, trainset, k, sample, rng);
      assert student.Value() == caller;
      LabeledOfReset(caller, trainset, k, sample, source(0));
    }
  }

  /**
   * The loop of `LabeledFewShot.compile`: predictor by predictor, its demos become a
   * fresh sample (advancing the one generator) or the leading examples.
   */
  method FillDemos(c: Module, trainset: seq<Dict>, k: int, sample: bool, rng: Random)
    returns (r: Outcome<Error>)
    requires c.Valid() && |trainset| > 0 && rng.used == 0
    requires forall j :: 0 <= j < |c.preds| ==> c.preds[j].lm == None
    modifies c.preds`demos, rng
    ensures r.Fail? <==> sample && k < 0 && |c.order| > 0
    ensures r.Fail? ==> r.error.ValueError? && c.Value() == old(c.Value())
    ensures r.Pass? ==> c.Value() == Labeled(old(c.Value()), trainset, k, sample, rng.draws)
  {
    var predictors := c.Predictors();
    var m := Min(k, |trainset|);
    ghost var before := c.Value();
    for i := 0 to |predictors|
      invariant sample && 0 <= m ==> rng.used == i * m
      invariant forall j :: 0 <= j < i ==> predictors[j].demos == LabeledDemos(trainset, k, sample, rng.draws, j)
      invariant sample && k < 0 ==> i == 0
      invariant i == 0 ==> c.Value() == before
    {
      assert forall j :: 0 <= j < i ==> predictors[j] != predictors[i];
      var filled := LabelOne(predictors[i], trainset, k, sample, rng, i);
      if filled.Fail? {
        return filled;
      }
    }
    LabeledFromParts(before, c.Value(), trainset, k, sample, rng.draws);
    r := Pass;
  }

  /**
   * One turn of that loop: predictor number i gets `rng.sample(trainset, m)` or the
   * first m examples, where m = min(k, |trainset|); a negative m makes the sample raise.
   */
  method LabelOne(p: Predict, trainset: seq<Dict>, k: int, sample: bool, rng: Random, ghost i: nat)
    returns (r: Outcome<Error>)
    requires |trainset| > 0
    requires sample && 0 <= k ==> rng.used == i * Min(k, |trainset|)
    modifies p`demos, rng
    ensures r.Fail? <==> sample && k < 0
    ensures r.Fail? ==> r.error.ValueError? && unchanged(p)
    ensures r.Pass? ==> p.demos == LabeledDemos(trainset, k, sample, rng.draws, i)
    ensures sample && 0 <= k ==> rng.used == (i + 1) * Min(k, |trainset|)
  {
    var m := Min(k, |trainset|);
    if sample {
      var drawn := rng.Sample(trainset, m);
      if drawn.Failure? {
        return Fail(drawn.error);
      }
      p.demos := drawn.value;
      assert (i + 1) * m == i * m + m;
    } else {
      p.demos := Prefix(trainset, m);
    }
    r := Pass;
  }
}
