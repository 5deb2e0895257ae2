/**
 * The loops of `BootstrapFewShot._bootstrap` (src/optiglot/optimizers/bootstrap.py) as
 * functions of the service's answers: the rounds loop for one example, and the
 * examples loop that runs it example by example. Each attempt's effect is
 * `Attempt` of the service's answer to the request it sends, so the collected
 * traces, the error count, the requests sent and the set of examples that passed
 * are all determined by the service and the configuration.
 */
module BootstrapLoop {
  import opened Wrappers
  import opened Lists
  import opened Models
  import opened Evaluation
  import opened BootstrapRules

  /** `judge` is `Attempt` under the given threshold, error budget and tie-break. */
  ghost predicate IsAttempt(judge: (Result<RolloutResponse, Error>, Traces, nat) -> Effect, threshold: Option<real>,
                            maxErrors: Option<int>, tieBreak: seq<Dict> -> TieBreak) {
    forall response, traces, errorCount: nat {:trigger Attempt(response, threshold, traces, errorCount, maxErrors, tieBreak)} ::
      judge(response, traces, errorCount) == Attempt(response, threshold, traces, errorCount, maxErrors, tieBreak)
  }

  /**
   * What the loops run with: the teacher's value, the service, and the configuration
   * that they read. `judge` is the effect of one answer on the traces and the error
   * count; a valid configuration has it be `Attempt` under its threshold, error budget
   * and tie-break.
   */
  datatype Config = Config(
    teacher: Program,
    respond: Service,
    judge: (Result<RolloutResponse, Error>, Traces, nat) -> Effect,
    threshold: Option<real>,
    maxErrors: Option<int>,
    tieBreak: seq<Dict> -> TieBreak,
    maxRounds: int,
    teacherLm: Option<LM>,
    maxBootstrapped: int)
  {
    ghost predicate Valid() {
      IsAttempt(judge, threshold, maxErrors, tieBreak)
    }

    /** Judging keeps the predictor names and appends at most one demo to each list. */
    ghost predicate Appends() {
      forall response, traces, errorCount: nat ::
        var t := judge(response, traces, errorCount).traces;
        t.Keys == traces.Keys &&
        forall name :: name in traces ==>
          |traces[name]| <= |t[name]| <= |traces[name]| + 1 && t[name][..|traces[name]|] == traces[name]
    }

    /** Judging never lowers the error count, and raises only once the count reaches the budget. */
    ghost predicate Counts() {
      forall response, traces, errorCount: nat ::
        var e := judge(response, traces, errorCount);
        errorCount <= e.errorCount &&
        (e.result.Failure? ==> maxErrors.Some? && errorCount < e.errorCount && maxErrors.value <= e.errorCount)
    }
  }

  /** The judging facts that the loop lemmas use, from `Attempt`. */
  lemma ValidJudge(c: Config)
    requires c.Valid()
    ensures c.Appends() && c.Counts()
  {
    forall response, traces, errorCount: nat
      ensures var t := c.judge(response, traces, errorCount).traces;
              t.Keys == traces.Keys &&
              forall name :: name in traces ==>
                |traces[name]| <= |t[name]| <= |traces[name]| + 1 && t[name][..|traces[name]|] == traces[name]
    {
      AttemptAppendsAtMostOne(response, c.threshold, traces, errorCount, c.maxErrors, c.tieBreak);
    }
    forall response, traces, errorCount: nat
      ensures var e := c.judge(response, traces, errorCount);
              errorCount <= e.errorCount &&
              (e.result.Failure? ==> c.maxErrors.Some? && errorCount < e.errorCount && c.maxErrors.value <= e.errorCount)
    {
      AttemptErrorBudget(response, c.threshold, traces, errorCount, c.maxErrors, c.tieBreak);
    }
  }

  /** The request of one round: the teacher stripped of the example, run with tracing on it, with the round's LM. */
  function SentRequest(c: Config, example: Dict, roundIdx: nat): RolloutRequest {
    RolloutRequest([Strip(c.teacher, example)], [example], true, LmForRound(c.teacherLm, roundIdx))
  }

  /**
   * A request of the bootstrapping loop: the teacher stripped of one training
   * example, run with tracing on that example, with the LM of one of the rounds.
   */
  ghost predicate SentFor(q: RolloutRequest, teacher: Program, trainset: seq<Dict>, maxRounds: int, teacherLm: Option<LM>) {
    |q.examples| == 1 && q.examples[0] in trainset && q.candidates == [Strip(teacher, q.examples[0])] && q.trace &&
    exists roundIdx: nat :: roundIdx < maxRounds && q.lm == LmForRound(teacherLm, roundIdx)
  }

  /** Every request of the log from position `start` on is one of the bootstrapping loop. */
  ghost predicate SentSince(log: seq<RolloutRequest>, start: nat, teacher: Program, trainset: seq<Dict>, maxRounds: int,
                            teacherLm: Option<LM>) {
    forall t :: start <= t < |log| ==> SentFor(log[t], teacher, trainset, maxRounds, teacherLm)
  }

  /**
   * No leakage: the one program of such a request has the teacher's structure, and
   * none of its predictors shows the example of the request as a demo.
   */
  lemma SentNoLeak(q: RolloutRequest, teacher: Program, trainset: seq<Dict>, maxRounds: int, teacherLm: Option<LM>)
    requires teacher.WellFormed() && SentFor(q, teacher, trainset, maxRounds, teacherLm)
    ensures |q.candidates| == 1 && q.candidates[0].WellFormed() && Compatible(q.candidates[0], teacher)
    ensures forall i :: 0 <= i < |q.candidates[0].predictors| ==> q.examples[0] !in q.candidates[0].predictors[i].demos
  {
    StripNoLeak(teacher, q.examples[0]);
  }

  /** Requests sent after a prefix that already satisfied `SentSince` keep it. */
  lemma SentSinceJoin(a: seq<RolloutRequest>, b: seq<RolloutRequest>, start: nat, teacher: Program, trainset: seq<Dict>,
                      maxRounds: int, teacherLm: Option<LM>)
    requires start <= |a| <= |b| && b[..|a|] == a
    requires SentSince(a, start, teacher, trainset, maxRounds, teacherLm)
    requires SentSince(b, |a|, teacher, trainset, maxRounds, teacherLm)
    ensures SentSince(b, start, teacher, trainset, maxRounds, teacherLm)
  {
    forall t | start <= t < |b|
      ensures SentFor(b[t], teacher, trainset, maxRounds, teacherLm)
    {
      if t < |a| {
        assert b[t] == b[..|a|][t];
      }
    }
  }

  lemma PrefixOfPrefix<T>(a: seq<T>, b: seq<T>, c: seq<T>)
    requires |a| <= |b| <= |c| && b[..|a|] == a && c[..|b|] == b
    ensures c[..|a|] == a
  {
    assert c[..|a|] == c[..|b|][..|a|];
  }

  // ---------------------------------------------------------------------------
  // The rounds loop for one example

  /** The outcome of trying one example: the result, and the log, traces and error count after it. */
  datatype Run = Run(result: Result<bool, Error>, log: seq<RolloutRequest>, traces: Traces, errorCount: nat)

  /**
   * `for round_idx in range(max_rounds)` from round `roundIdx` on: each round sends
   * its request and applies the judging step to the service's answer; the loop ends at the
   * first round that passes (True) or raises, and otherwise after the last round (False).
   */
  function Rounds(c: Config, example: Dict, roundIdx: nat, log: seq<RolloutRequest>, traces: Traces, errorCount: nat): Run
    decreases c.maxRounds - roundIdx
  {
    if c.maxRounds <= roundIdx then Run(Success(false), log, traces, errorCount)
    else
      var q := SentRequest(c, example, roundIdx);
      var e := c.judge(c.respond(log, q), traces, errorCount);
      if e.result != Success(false) then Run(e.result, log + [q], e.traces, e.errorCount)
      else Rounds(c, example, roundIdx + 1, log + [q], e.traces, e.errorCount)
  }

  /**
   * The log only grows, by one request per round tried: every remaining round when
   * none passes or raises, at least one otherwise; each request is one of the loop's.
   */
  lemma {:induction false} RoundsLog(c: Config, trainset: seq<Dict>, example: Dict, roundIdx: nat, log: seq<RolloutRequest>,
                                     traces: Traces, errorCount: nat)
    requires example in trainset
    ensures var run := Rounds(c, example, roundIdx, log, traces, errorCount);
            |log| <= |run.log| <= |log| + Max(0, c.maxRounds - roundIdx) && run.log[..|log|] == log &&
            (run.result == Success(false) ==> |run.log| == |log| + Max(0, c.maxRounds - roundIdx)) &&
            (run.result != Success(false) ==> |log| < |run.log|) &&
            SentSince(run.log, |log|, c.teacher, trainset, c.maxRounds, c.teacherLm)
    decreases c.maxRounds - roundIdx
  {
    if roundIdx < c.maxRounds {
      var q := SentRequest(c, example, roundIdx);
      var e := c.judge(c.respond(log, q), traces, errorCount);
      assert SentFor(q, c.teacher, trainset, c.maxRounds, c.teacherLm) by {
        assert q.lm == LmForRound(c.teacherLm, roundIdx);
      }
      var next := log + [q];
      assert SentSince(next, |log|, c.teacher, trainset, c.maxRounds, c.teacherLm);
      assert next[..|log|] == log;
      if e.result == Success(false) {
        RoundsLog(c, trainset, example, roundIdx + 1, next, e.traces, e.errorCount);
        var run := Rounds(c, example, roundIdx + 1, next, e.traces, e.errorCount);
        PrefixOfPrefix(log, next, run.log);
        SentSinceJoin(next, run.log, |log|, c.teacher, trainset, c.maxRounds, c.teacherLm);
      }
    }
  }

  /** The predictor names are kept, and each list only grows at its end, by at most one demo per round tried. */
  lemma {:induction false} RoundsTraces(c: Config, example: Dict, roundIdx: nat, log: seq<RolloutRequest>,
                                        traces: Traces, errorCount: nat)
    requires c.Appends()
    ensures var run := Rounds(c, example, roundIdx, log, traces, errorCount);
            run.traces.Keys == traces.Keys &&
            forall name :: name in traces ==>
              |traces[name]| <= |run.traces[name]| <= |traces[name]| + (|run.log| - |log|) &&
              run.traces[name][..|traces[name]|] == traces[name]
    decreases c.maxRounds - roundIdx
  {
    if roundIdx < c.maxRounds {
      var q := SentRequest(c, example, roundIdx);
      var e := c.judge(c.respond(log, q), traces, errorCount);
      if e.result == Success(false) {
        RoundsTraces(c, example, roundIdx + 1, log + [q], e.traces, e.errorCount);
        var run := Rounds(c, example, roundIdx + 1, log + [q], e.traces, e.errorCount);
        forall name | name in traces
          ensures run.traces[name][..|traces[name]|] == traces[name]
        {
          PrefixOfPrefix(traces[name], e.traces[name], run.traces[name]);
        }
      }
    }
  }

  /** The error count never goes down, and an exception that ends the loop means the budget was reached. */
  lemma {:induction false} RoundsErrors(c: Config, example: Dict, roundIdx: nat, log: seq<RolloutRequest>,
                                        traces: Traces, errorCount: nat)
    requires c.Counts()
    ensures var run := Rounds(c, example, roundIdx, log, traces, errorCount);
            errorCount <= run.errorCount &&
            (run.result.Failure? ==> c.maxErrors.Some? && errorCount < run.errorCount && c.maxErrors.value <= run.errorCount)
    decreases c.maxRounds - roundIdx
  {
    if roundIdx < c.maxRounds {
      var q := SentRequest(c, example, roundIdx);
      var e := c.judge(c.respond(log, q), traces, errorCount);
      if e.result == Success(false) {
        RoundsErrors(c, example, roundIdx + 1, log + [q], e.traces, e.errorCount);
      }
    }
  }

  /**
   * An example passes only on an accepted answer: the last request sent for it got
   * one scored, passing, traced result.
   */
  lemma {:induction false} RoundsPassed(c: Config, example: Dict, roundIdx: nat, log: seq<RolloutRequest>,
                                        traces: Traces, errorCount: nat)
    requires c.Valid()
    requires Rounds(c, example, roundIdx, log, traces, errorCount).result == Success(true)
    ensures var run := Rounds(c, example, roundIdx, log, traces, errorCount);
            |log| < |run.log| &&
            var t := |run.log| - 1;
            c.respond(run.log[..t], run.log[t]).Success? &&
            Validate(c.respond(run.log[..t], run.log[t]).value, c.threshold).Accept?
    decreases c.maxRounds - roundIdx
  {
    var q := SentRequest(c, example, roundIdx);
    var e := c.judge(c.respond(log, q), traces, errorCount);
    if e.result == Success(true) {
      assert (log + [q])[..|log|] == log;
      AttemptSuccess(c.respond(log, q), c.threshold, traces, errorCount, c.maxErrors, c.tieBreak);
    } else {
      RoundsPassed(c, example, roundIdx + 1, log + [q], e.traces, e.errorCount);
    }
  }

  // ---------------------------------------------------------------------------
  // The examples loop

  /**
   * The state of the examples loop: whether it raised or broke off, the indices that
   * passed, and the log, traces and error count so far.
   */
  datatype Progress = Progress(result: Outcome<Error>, stopped: bool, bootstrapped: set<nat>,
                               log: seq<RolloutRequest>, traces: Traces, errorCount: nat)

  /**
   * The examples loop after its first n examples: an example is skipped once the loop
   * raised or broke off; the loop breaks off when `max_bootstrapped_demos` examples
   * have passed; otherwise the example's rounds run, and it is marked when they pass.
   */
  function Upto(c: Config, trainset: seq<Dict>, log: seq<RolloutRequest>, traces: Traces, errorCount: nat, n: nat): Progress
    requires n <= |trainset|
  {
    if n == 0 then Progress(Pass, false, {}, log, traces, errorCount)
    else
      var s := Upto(c, trainset, log, traces, errorCount, n - 1);
      if s.result.Fail? || s.stopped then s else Step(c, trainset, n - 1, s)
  }

  /**
   * One turn of the examples loop on example `idx` from a running state: it stops
   * at the cap, or runs the example's rounds, which may raise or mark it passed.
   */
  function Step(c: Config, trainset: seq<Dict>, idx: nat, s: Progress): Progress
    requires idx < |trainset|
  {
    if c.maxBootstrapped <= |s.bootstrapped| then s.(stopped := true)
    else
      var run := Rounds(c, trainset[idx], 0, s.log, s.traces, s.errorCount);
      Progress(if run.result.Failure? then Fail(run.result.error) else Pass, false,
               if run.result == Success(true) then s.bootstrapped + {idx} else s.bootstrapped,
               run.log, run.traces, run.errorCount)
  }

  /** Example i was tried from the state the loop had reached, and one of its rounds passed. */
  ghost predicate Passed(c: Config, trainset: seq<Dict>, log: seq<RolloutRequest>, traces: Traces, errorCount: nat, i: nat)
    requires i < |trainset|
  {
    var s := Upto(c, trainset, log, traces, errorCount, i);
    s.result.Pass? && !s.stopped && |s.bootstrapped| < c.maxBootstrapped &&
    Rounds(c, trainset[i], 0, s.log, s.traces, s.errorCount).result == Success(true)
  }

  /** Once the loop raised or broke off, later examples change nothing. */
  lemma {:induction false} UptoStays(c: Config, trainset: seq<Dict>, log: seq<RolloutRequest>, traces: Traces,
                                     errorCount: nat, k: nat, m: nat)
    requires k <= m <= |trainset|
    requires Upto(c, trainset, log, traces, errorCount, k).result.Fail? || Upto(c, trainset, log, traces, errorCount, k).stopped
    ensures Upto(c, trainset, log, traces, errorCount, m) == Upto(c, trainset, log, traces, errorCount, k)
    decreases m
  {
    if k < m {
      UptoStays(c, trainset, log, traces, errorCount, k, m - 1);
      var s := Upto(c, trainset, log, traces, errorCount, m - 1);
      assert s.result.Fail? || s.stopped;
    }
  }

  /** The marked indices are below n, and there are at most max(0, max_bootstrapped_demos) of them. */
  lemma {:induction false} UptoMarks(c: Config, trainset: seq<Dict>, log: seq<RolloutRequest>, traces: Traces,
                                     errorCount: nat, n: nat)
    requires n <= |trainset|
    ensures var s := Upto(c, trainset, log, traces, errorCount, n);
            (forall i :: i in s.bootstrapped ==> i < n) && |s.bootstrapped| <= Max(0, c.maxBootstrapped)
  {
    if n > 0 {
      var s := Upto(c, trainset, log, traces, errorCount, n - 1);
      UptoMarks(c, trainset, log, traces, errorCount, n - 1);
      if s.result.Pass? && !s.stopped && |s.bootstrapped| < c.maxBootstrapped {
        var run := Rounds(c, trainset[n - 1], 0, s.log, s.traces, s.errorCount);
        if run.result == Success(true) {
          assert n - 1 !in s.bootstrapped;
          assert |s.bootstrapped + {n - 1}| == |s.bootstrapped| + 1;
        }
      }
    }
  }

  /** An index is marked exactly when that example was tried and one of its rounds passed. */
  lemma {:induction false} UptoBootstrapped(c: Config, trainset: seq<Dict>, log: seq<RolloutRequest>, traces: Traces,
                                            errorCount: nat, n: nat, i: nat)
    requires n <= |trainset|
    ensures i in Upto(c, trainset, log, traces, errorCount, n).bootstrapped <==>
            i < n && Passed(c, trainset, log, traces, errorCount, i)
  {
    if n > 0 {
      var s := Upto(c, trainset, log, traces, errorCount, n - 1);
      UptoMarks(c, trainset, log, traces, errorCount, n - 1);
      UptoMarksLast(c, trainset, log, traces, errorCount, n);
      if i < n - 1 {
        UptoBootstrapped(c, trainset, log, traces, errorCount, n - 1, i);
      } else if i == n - 1 {
        assert i !in s.bootstrapped;
      }
    }
  }

  /** The turn on example n - 1 adds it to the marked set exactly when it passed. */
  lemma UptoMarksLast(c: Config, trainset: seq<Dict>, log: seq<RolloutRequest>, traces: Traces, errorCount: nat, n: nat)
    requires 0 < n <= |trainset|
    ensures var b := Upto(c, trainset, log, traces, errorCount, n - 1).bootstrapped;
            Upto(c, trainset, log, traces, errorCount, n).bootstrapped ==
            if Passed(c, trainset, log, traces, errorCount, n - 1) then b + {n - 1} else b
  {
  }

  /**
   * The log only grows, by at most `max_rounds` requests per example, each of them
   * the stripped teacher on a training example.
   */
  lemma {:induction false} UptoLog(c: Config, trainset: seq<Dict>, log: seq<RolloutRequest>, traces: Traces,
                                   errorCount: nat, n: nat)
    requires n <= |trainset|
    ensures var s := Upto(c, trainset, log, traces, errorCount, n);
            |log| <= |s.log| <= |log| + n * Max(0, c.maxRounds) && s.log[..|log|] == log &&
            SentSince(s.log, |log|, c.teacher, trainset, c.maxRounds, c.teacherLm)
  {
    if n > 0 {
      var s := Upto(c, trainset, log, traces, errorCount, n - 1);
      UptoLog(c, trainset, log, traces, errorCount, n - 1);
      assert n * Max(0, c.maxRounds) == (n - 1) * Max(0, c.maxRounds) + Max(0, c.maxRounds);
      if s.result.Pass? && !s.stopped && |s.bootstrapped| < c.maxBootstrapped {
        RoundsLog(c, trainset, trainset[n - 1], 0, s.log, s.traces, s.errorCount);
        var run := Rounds(c, trainset[n - 1], 0, s.log, s.traces, s.errorCount);
        PrefixOfPrefix(log, s.log, run.log);
        SentSinceJoin(s.log, run.log, |log|, c.teacher, trainset, c.maxRounds, c.teacherLm);
      }
    }
  }

  /** The predictor names are kept, and each list only grows at its end, by at most one demo per request sent. */
  lemma {:induction false} UptoTraces(c: Config, trainset: seq<Dict>, log: seq<RolloutRequest>, traces: Traces,
                                      errorCount: nat, n: nat)
    requires c.Appends()
    requires n <= |trainset|
    ensures var s := Upto(c, trainset, log, traces, errorCount, n);
            s.traces.Keys == traces.Keys &&
            forall name :: name in traces ==>
              |traces[name]| <= |s.traces[name]| <= |traces[name]| + (|s.log| - |log|) &&
              s.traces[name][..|traces[name]|] == traces[name]
  {
    if n > 0 {
      var s := Upto(c, trainset, log, traces, errorCount, n - 1);
      UptoTraces(c, trainset, log, traces, errorCount, n - 1);
      if s.result.Pass? && !s.stopped && |s.bootstrapped| < c.maxBootstrapped {
        RoundsTraces(c, trainset[n - 1], 0, s.log, s.traces, s.errorCount);
        var run := Rounds(c, trainset[n - 1], 0, s.log, s.traces, s.errorCount);
        forall name | name in traces
          ensures run.traces[name][..|traces[name]|] == traces[name]
        {
          PrefixOfPrefix(traces[name], s.traces[name], run.traces[name]);
        }
      }
    }
  }

  /** The error count never goes down, and a loop that raised had reached the error budget. */
  lemma {:induction false} UptoErrors(c: Config, trainset: seq<Dict>, log: seq<RolloutRequest>, traces: Traces,
                                      errorCount: nat, n: nat)
    requires c.Counts()
    requires n <= |trainset|
    ensures var s := Upto(c, trainset, log, traces, errorCount, n);
            errorCount <= s.errorCount &&
            (s.result.Fail? ==> c.maxErrors.Some? && errorCount < s.errorCount && c.maxErrors.value <= s.errorCount)
  {
    if n > 0 {
      var s := Upto(c, trainset, log, traces, errorCount, n - 1);
      UptoErrors(c, trainset, log, traces, errorCount, n - 1);
      if s.result.Pass? && !s.stopped && |s.bootstrapped| < c.maxBootstrapped {
        RoundsErrors(c, trainset[n - 1], 0, s.log, s.traces, s.errorCount);
      }
    }
  }

  /**
   * The examples loop as the loop in `_bootstrap` runs it: from example `idx` on, in
   * state `s`, it ends once every example was taken, an attempt raised or
   * `max_bootstrapped_demos` examples have passed.
   */
  function Examples(c: Config, trainset: seq<Dict>, idx: nat, s: Progress): Progress
    requires idx <= |trainset|
    decreases |trainset| - idx
  {
    if idx == |trainset| || s.result.Fail? || s.stopped then s
    else Examples(c, trainset, idx + 1, Step(c, trainset, idx, s))
  }

  /** Running the rest of the loop from the state after the first n examples gives the state after all of them. */
  lemma {:induction false} ExamplesUpto(c: Config, trainset: seq<Dict>, log: seq<RolloutRequest>, traces: Traces,
                                        errorCount: nat, n: nat)
    requires n <= |trainset|
    ensures Examples(c, trainset, n, Upto(c, trainset, log, traces, errorCount, n)) ==
            Upto(c, trainset, log, traces, errorCount, |trainset|)
    decreases |trainset| - n
  {
    if n < |trainset| {
      var s := Upto(c, trainset, log, traces, errorCount, n);
      if s.result.Fail? || s.stopped {
        UptoStays(c, trainset, log, traces, errorCount, n, |trainset|);
      } else {
        ExamplesUpto(c, trainset, log, traces, errorCount, n + 1);
      }
    }
  }

  /** A name for each predictor, with no demo yet: the start of `name2traces`. */
  function EmptyTraces(names: seq<string>): (t: Traces)
    ensures forall name :: name in t <==> name in names
    ensures forall name :: name in t ==> t[name] == []
  {
    map name | name in names :: []
  }

  /** The examples loop over the whole trainset, from an empty list per predictor name. */
  function Finished(c: Config, trainset: seq<Dict>, log: seq<RolloutRequest>, names: seq<string>, errorCount: nat): Progress {
    Upto(c, trainset, log, EmptyTraces(names), errorCount, |trainset|)
  }

  /**
   * What the whole examples loop guarantees: the marked indices are examples, at most
   * `max_bootstrapped_demos` of them; at most `max_rounds` requests per example, each
   * the stripped teacher on a training example; one list per predictor name, with at
   * most one demo per request; and an exception only once the error budget is reached.
   */
  lemma FinishedBounds(c: Config, trainset: seq<Dict>, log: seq<RolloutRequest>, names: seq<string>, errorCount: nat)
    requires c.Valid()
    ensures var s := Finished(c, trainset, log, names, errorCount);
            (forall i :: i in s.bootstrapped ==> i < |trainset|) && |s.bootstrapped| <= Max(0, c.maxBootstrapped) &&
            |log| <= |s.log| <= |log| + |trainset| * Max(0, c.maxRounds) && s.log[..|log|] == log &&
            SentSince(s.log, |log|, c.teacher, trainset, c.maxRounds, c.teacherLm) &&
            (forall name :: name in s.traces <==> name in names) &&
            (forall name :: name in s.traces ==> |s.traces[name]| <= |s.log| - |log|) &&
            errorCount <= s.errorCount &&
            (s.result.Fail? ==> c.maxErrors.Some? && errorCount < s.errorCount && c.maxErrors.value <= s.errorCount)
  {
    var traces := EmptyTraces(names);
    UptoMarks(c, trainset, log, traces, errorCount, |trainset|);
    UptoLog(c, trainset, log, traces, errorCount, |trainset|);
    ValidJudge(c);
    UptoTraces(c, trainset, log, traces, errorCount, |trainset|);
    UptoErrors(c, trainset, log, traces, errorCount, |trainset|);
  }
}
