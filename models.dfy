/**
 * The records of the optimiser: signatures, predictors, programs and the rollout
 * protocol's request and response shapes (src/optiglot/models.py).
 *
 * Predictors and programs are objects that the optimisers copy and then change in
 * place, so `Predict` and `Module` are classes; `PredictValue` and `Program` are
 * their serialised values, which is what travels to the execution service.
 */
module Models {
  import opened Wrappers
  import opened Lists

  /** A JSON value: the `Any` inside examples, demos and predictions. */
  datatype Json =
    | Null
    | Bool(b: bool)
    | Num(x: real)
    | Str(s: string)
    | Arr(items: seq<Json>)
    | Obj(fields: map<string, Json>)

  /** `dict[str, Any]`: a raw training example, or a demonstration. */
  type Dict = map<string, Json>

  /** Python truthiness of a JSON value (`if step.prediction.output:`). */
  predicate Truthy(v: Json) {
    match v
    case Null => false
    case Bool(b) => b
    case Num(x) => x != 0.0
    case Str(s) => s != ""
    case Arr(items) => items != []
    case Obj(fields) => fields != map[]
  }

  /** The exceptions that cross the optimisers' boundaries. */
  datatype Error =
    | Transport(detail: string)     // raised by the evaluator: HTTP failure, bad payload, harness error
    | KeyError(key: string)         // a dict lookup of a missing key
    | ValueError(detail: string)    // a random sample or range that cannot be drawn
    | UnboundLocal(name: string)    // a local variable read before it was bound
    | AssertionError(detail: string)

  datatype FieldType =
    | StringType | NumberType | IntegerType | BooleanType | ArrayType | ObjectType
    | Schema(schema: Dict)

  datatype FieldKind = InputField | OutputField

  datatype Field = Field(prefix: string, fieldType: FieldType, kind: FieldKind, description: Option<string>)

  datatype Signature = Signature(instructions: string, inputFields: map<string, Field>, outputFields: map<string, Field>)
  {
    /** `RPCSignature.with_instructions`: a copy whose instructions are replaced. */
    function WithInstructions(instructions: string): (s: Signature)
      ensures s.instructions == instructions
      ensures s.inputFields == inputFields && s.outputFields == outputFields
    {
      this.(instructions := instructions)
    }
  }

  datatype ModelType = Chat | Text | Responses

  /** A language-model override (`RPCLM`). */
  datatype LM = LM(model: string, modelType: ModelType, temperature: Option<real>, rolloutId: Option<int>)

  /** The serialised state of one predictor. */
  datatype PredictValue = PredictValue(signature: Signature, demos: seq<Dict>, lm: Option<LM>)

  /**
   * The serialised state of a program: the keys of `named_predictors` in insertion
   * order, and the predictor under each key at the same position.
   */
  datatype Program = Program(order: seq<string>, predictors: seq<PredictValue>)
  {
    /** The names are the keys of a dict: each occurs once, and each has its predictor. */
    ghost predicate WellFormed() {
      |order| == |predictors| && Distinct(order)
    }

    /** The value of the program once every predictor is reset. */
    function Reset(): (p: Program)
      ensures p.order == order && |p.predictors| == |predictors|
      ensures forall i :: 0 <= i < |predictors| ==> p.predictors[i] == PredictValue(predictors[i].signature, [], None)
    {
      Program(order, seq(|predictors|, i requires 0 <= i < |predictors| => PredictValue(predictors[i].signature, [], None)))
    }
  }

  /**
   * The structure check of `_prepare_predictor_mappings`: the same number of
   * predictors and, position by position, the same name and an equal signature.
   */
  ghost predicate Compatible(s: Program, t: Program)
    requires s.WellFormed() && t.WellFormed()
  {
    |s.order| == |t.order| &&
    forall i :: 0 <= i < |s.order| ==>
      s.order[i] == t.order[i] && s.predictors[i].signature == t.predictors[i].signature
  }

  /** `RPCPredict`: a signature, its demonstrations and an optional LM override. */
  class Predict {
    var signature: Signature
    var demos: seq<Dict>
    var lm: Option<LM>

    constructor (signature: Signature, demos: seq<Dict>, lm: Option<LM>)
      ensures Value() == PredictValue(signature, demos, lm)
    {
      this.signature := signature;
      this.demos := demos;
      this.lm := lm;
    }

    function Value(): PredictValue
      reads this
    {
      PredictValue(signature, demos, lm)
    }

    /** `RPCPredict.deepcopy`: a new predictor equal to this one. */
    method DeepCopy() returns (c: Predict)
      ensures fresh(c) && c.Value() == Value()
    {
      c := new Predict(signature, demos, lm);
    }

    /** `RPCPredict.reset`: drops the demos and the LM override and keeps the signature. */
    method Reset()
      modifies this
      ensures signature == old(signature) && demos == [] && lm == None
    {
      lm := None;
      demos := [];
    }
  }

  /**
   * `RPCModule`: `named_predictors` held as its keys in insertion order and, at the
   * same positions, the predictor objects.
   */
  class Module {
    const order: seq<string>
    const preds: seq<Predict>

    /** A dict of distinct predictor objects: no two names share one predictor. */
    ghost predicate Valid() {
      |order| == |preds| && Distinct(order) && Distinct(preds)
    }

    constructor (order: seq<string>, preds: seq<Predict>)
      ensures this.order == order && this.preds == preds
    {
      this.order := order;
      this.preds := preds;
    }

    /** `RPCModule.predictors`: the values of `named_predictors`, one per name, in insertion order. */
    function Predictors(): (ps: seq<Predict>)
      requires Valid()
      ensures |ps| == |order| && Distinct(ps)
      ensures forall i :: 0 <= i < |ps| ==> ps[i] == preds[i]
    {
      preds
    }

    /** The serialised program. */
    function Value(): (p: Program)
      requires Valid()
      reads preds
      ensures p.WellFormed() && p.order == order && |p.predictors| == |preds|
      ensures forall i :: 0 <= i < |preds| ==> p.predictors[i] == preds[i].Value()
    {
      Program(order, seq(|preds|, i requires 0 <= i < |preds| reads preds => preds[i].Value()))
    }

    /** `RPCModule.deepcopy`: an equal program that shares no predictor object with this one. */
    method DeepCopy() returns (c: Module)
      requires Valid()
      ensures fresh(c) && c.Valid() && c.order == order
      ensures forall i :: 0 <= i < |c.preds| ==> fresh(c.preds[i])
      ensures c.Value() == Value()
    {
      var copies: seq<Predict> := [];
      for i := 0 to |preds|
        invariant |copies| == i && Distinct(copies)
        invariant forall j :: 0 <= j < i ==> fresh(copies[j]) && copies[j].Value() == preds[j].Value()
      {
        var p := preds[i].DeepCopy();
        copies := copies + [p];
      }
      c := new Module(order, copies);
    }

    /** `RPCModule.reset_copy`: a deep copy in which every predictor is reset. */
    method ResetCopy() returns (c: Module)
      requires Valid()
      ensures fresh(c) && c.Valid() && c.order == order
      ensures forall i :: 0 <= i < |c.preds| ==> fresh(c.preds[i])
      ensures c.Value() == Value().Reset()
    {
      c := DeepCopy();
      ghost var before := c.Value();
      for i := 0 to |c.Predictors()|
        invariant forall j :: 0 <= j < |c.preds| ==> c.preds[j].signature == before.predictors[j].signature
        invariant forall j :: 0 <= j < i ==> c.preds[j].demos == [] && c.preds[j].lm == None
      {
        c.Predictors()[i].Reset();
      }
    }
  }

  /** One predictor invocation in a traced rollout. Error fields of the prediction are not modelled. */
  datatype Prediction = Prediction(output: Json)

  datatype TraceStep = TraceStep(predictorName: string, inputs: Dict, prediction: Prediction)

  datatype Usage = Usage(promptTokens: int, completionTokens: int, totalTokens: int)

  /** The three counters of `RPCUsage`. */
  datatype Counter = PromptTokens | CompletionTokens | TotalTokens

  function Count(u: Usage, c: Counter): int {
    match c
    case PromptTokens => u.promptTokens
    case CompletionTokens => u.completionTokens
    case TotalTokens => u.totalTokens
  }

  /** The result of one candidate on one example. */
  datatype RolloutResult = RolloutResult(
    example: Dict,
    prediction: Prediction,
    score: Option<real>,
    feedback: Option<string>,
    trace: Option<seq<TraceStep>>,
    usage: Option<Usage>)

  /** Sum of one counter over the results that carry usage. */
  function UsageSum(results: seq<RolloutResult>, c: Counter): int
  {
    if results == [] then 0
    else
      (match results[0].usage case Some(u) => Count(u, c) case None => 0) + UsageSum(results[1..], c)
  }

  lemma {:induction false} UsageSumAppend(a: seq<RolloutResult>, b: seq<RolloutResult>, c: Counter)
    ensures UsageSum(a + b, c) == UsageSum(a, c) + UsageSum(b, c)
  {
    if a == [] {
      assert a + b == b;
    } else {
      assert (a + b)[1..] == a[1..] + b;
      UsageSumAppend(a[1..], b, c);
    }
  }

  lemma {:induction false} UsageSumWithoutUsage(results: seq<RolloutResult>, c: Counter)
    requires forall i :: 0 <= i < |results| ==> results[i].usage.None?
    ensures UsageSum(results, c) == 0
  {
    if results != [] {
      UsageSumWithoutUsage(results[1..], c);
    }
  }

  /** Every counter is at least its value in any single result, when no counter is negative. */
  lemma {:induction false} UsageSumBounds(results: seq<RolloutResult>, c: Counter, i: nat)
    requires forall j :: 0 <= j < |results| && results[j].usage.Some? ==> Count(results[j].usage.value, c) >= 0
    requires i < |results| && results[i].usage.Some?
    ensures 0 <= Count(results[i].usage.value, c) <= UsageSum(results, c)
  {
    if i > 0 {
      UsageSumBounds(results[1..], c, i - 1);
    } else {
      UsageSumNonNegative(results[1..], c);
    }
  }

  lemma {:induction false} UsageSumNonNegative(results: seq<RolloutResult>, c: Counter)
    requires forall j :: 0 <= j < |results| && results[j].usage.Some? ==> Count(results[j].usage.value, c) >= 0
    ensures UsageSum(results, c) >= 0
  {
    if results != [] {
      UsageSumNonNegative(results[1..], c);
    }
  }

  datatype RolloutResponse = RolloutResponse(results: seq<RolloutResult>)
  {
    /**
     * `total_usage`: absent for an empty response; otherwise each counter summed over
     * the results that carry usage, all three zero when none does.
     */
    function TotalUsage(): (u: Option<Usage>)
      ensures u.None? <==> results == []
      ensures u.Some? ==> forall c :: Count(u.value, c) == UsageSum(results, c)
      ensures results != [] && (forall i :: 0 <= i < |results| ==> results[i].usage.None?) ==>
                u == Some(Usage(0, 0, 0))
    {
      if results == [] then None
      else
        var u := Usage(UsageSum(results, PromptTokens), UsageSum(results, CompletionTokens), UsageSum(results, TotalTokens));
        if forall i :: 0 <= i < |results| ==> results[i].usage.None? then
          UsageSumWithoutUsage(results, PromptTokens);
          UsageSumWithoutUsage(results, CompletionTokens);
          UsageSumWithoutUsage(results, TotalTokens);
          Some(u)
        else
          Some(u)
    }
  }

  /** The usage of two responses taken together is the sum of their usages. */
  lemma TotalUsageOfConcat(a: RolloutResponse, b: RolloutResponse)
    requires a.results != [] && b.results != []
    ensures forall c :: Count(RolloutResponse(a.results + b.results).TotalUsage().value, c) ==
                        Count(a.TotalUsage().value, c) + Count(b.TotalUsage().value, c)
  {
    forall c: Counter {
      UsageSumAppend(a.results, b.results, c);
    }
  }

  /** A rollout request: candidate programs, examples, the trace flag and an optional LM override. */
  datatype RolloutRequest = RolloutRequest(candidates: seq<Program>, examples: seq<Dict>, trace: bool, lm: Option<LM>)
}
