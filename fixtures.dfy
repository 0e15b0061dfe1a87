/**
 * The test agents of the runner (src/runner.rs, its test module): one that
 * retries until its attempt counter reaches a threshold, one that always
 * retries, and one that waits once and then finishes. Each is registered
 * alone in a workflow named "test".
 */
module RunnerFixtures {
  import opened Wrappers
  import opened Agents
  import opened Workflows
  import opened Runners

  /** The tests' state, a `u32` passed through unchanged. */
  datatype Counter = Counter(n: nat)

  datatype TestAgent =
    | RetryAgent(attempts: nat, succeedOn: nat)
    | AlwaysRetry
    | WaitOnce(waited: bool)

  function Name(a: TestAgent): string
  {
    match a
    case RetryAgent(_, _) => "retry_agent"
    case AlwaysRetry => "always_retry"
    case WaitOnce(_) => "wait_once"
  }

  function Run(a: TestAgent, s: Counter): (TestAgent, StepResult<Counter>)
  {
    match a
    case RetryAgent(attempts, succeedOn) =>
      var a' := RetryAgent(attempts + 1, succeedOn);
      if attempts + 1 >= succeedOn then (a', Ok((s, Done)))
      else (a', Ok((s, Retry(NewRetryHint("not ready")))))
    case AlwaysRetry => (a, Ok((s, Retry(NewRetryHint("never ready")))))
    case WaitOnce(waited) =>
      if !waited then (WaitOnce(true), Ok((s, Wait(1))))
      else (a, Ok((s, Done)))
  }

  /** The workflow "test" with `a` as its only agent, which is also the start. */
  function Single(a: TestAgent): Workflow<TestAgent>
  {
    Workflow("test", Name(a), map[Name(a) := a], map[])
  }

  /** `Workflow::builder("test").register(a).build()` yields `Single(a)`. */
  lemma SingleBuilds(a: TestAgent, r: Result<Workflow<TestAgent>, WorkflowError>)
    requires BuildOutcome(Replay(Name, Fresh("test"), [RegisterCall(a)]), r)
    ensures r == Ok(Single(a))
  {
    var calls: seq<Call<TestAgent>> := [RegisterCall(a)];
    assert calls[..0] == [];
    assert Replay(Name, Fresh("test"), calls[..0]) == Fresh("test");
    var b := Replay(Name, Fresh("test"), calls);
    assert b == Apply(Name, Fresh("test"), RegisterCall(a));
    assert b.agents == map[Name(a) := a] && b.defaultNext == map[];
    assert b.defaultNext.Values == {};
    BuildOkIffValid(b, r);
  }

  /**
   * `AlwaysRetry` under a retry budget N and a larger step budget is
   * invoked exactly N + 1 times, and the run fails with
   * "step 'always_retry' exceeded max retries (N): never ready".
   */
  lemma AlwaysRetryFails(maxSteps: nat, maxRetries: nat, s: Counter)
    requires maxSteps > maxRetries
    ensures var out := Exec(Run, Single(AlwaysRetry), maxSteps, maxRetries, s);
      && |out.trace| == maxRetries + 1
      && out.result == Err(RetryExceededError("always_retry", maxRetries, "never ready"))
  {
    assert AlwaysRetries(Run, AlwaysRetry, "never ready");
    AlwaysRetryExhausts(Run, Single(AlwaysRetry), maxSteps, maxRetries, s, "never ready");
  }

  /** The test `retry_exceeds_limit`: with retry budget 2 the error text contains "exceeded max retries". */
  lemma AlwaysRetryMessage(s: Counter)
    ensures Exec(Run, Single(AlwaysRetry), DefaultMaxSteps, 2, s).result.Err?
    ensures Contains(Display(Exec(Run, Single(AlwaysRetry), DefaultMaxSteps, 2, s).result.error), "exceeded max retries")
  {
    AlwaysRetryFails(DefaultMaxSteps, 2, s);
    RetryErrorsMentionBudget("always_retry", 2, "never ready");
  }

  /** Invocations `RetryAgent` still needs from `attempts` before it reports `Done`. */
  function Remaining(attempts: nat, succeedOn: nat): nat
  {
    if attempts + 1 >= succeedOn then 1 else succeedOn - attempts
  }

  /** One invocation of `RetryAgent` that is not yet ready and still has a retry left: the loop retries it. */
  lemma RetryAgentStep(maxRetries: nat, fuel: nat, attempts: nat, succeedOn: nat, s: Counter, trace: seq<Event<Counter>>)
    requires fuel > 0 && attempts + 1 < succeedOn && attempts < maxRetries
    ensures Loop(Run, Single(RetryAgent(0, succeedOn)), maxRetries, fuel, "retry_agent", attempts, s,
                 map["retry_agent" := RetryAgent(attempts, succeedOn)], trace)
         == Loop(Run, Single(RetryAgent(0, succeedOn)), maxRetries, fuel - 1, "retry_agent", attempts + 1, s,
                 map["retry_agent" := RetryAgent(attempts + 1, succeedOn)],
                 trace + [Event("retry_agent", attempts, s, Ok((s, Retry(RetryHint("not ready")))))])
  {
    var agents := map["retry_agent" := RetryAgent(attempts, succeedOn)];
    assert agents["retry_agent" := RetryAgent(attempts + 1, succeedOn)] == map["retry_agent" := RetryAgent(attempts + 1, succeedOn)];
  }

  /**
   * The invocation of `RetryAgent` that ends the run: it reports `Done`
   * once ready, and otherwise, with no retry left, the run fails with the
   * retry error.
   */
  lemma RetryAgentLastStep(maxRetries: nat, fuel: nat, attempts: nat, succeedOn: nat, s: Counter, trace: seq<Event<Counter>>)
    requires fuel > 0 && (attempts + 1 >= succeedOn || attempts == maxRetries)
    ensures var out := Loop(Run, Single(RetryAgent(0, succeedOn)), maxRetries, fuel, "retry_agent", attempts, s,
                            map["retry_agent" := RetryAgent(attempts, succeedOn)], trace);
      && |out.trace| == |trace| + 1
      && out.agents == map["retry_agent" := RetryAgent(attempts + 1, succeedOn)]
      && out.result == if attempts + 1 >= succeedOn then Ok(s)
                       else Err(RetryExceededError("retry_agent", maxRetries, "not ready"))
  {
    var agents := map["retry_agent" := RetryAgent(attempts, succeedOn)];
    assert agents["retry_agent" := RetryAgent(attempts + 1, succeedOn)] == map["retry_agent" := RetryAgent(attempts + 1, succeedOn)];
  }

  /**
   * `RetryAgent` from `attempts` (equal to the retry counter): it finishes
   * after `Remaining` invocations if those retries fit in the budget, and
   * otherwise fails with the retry error once the budget is exceeded;
   * either way a too small step budget ends the run first.
   */
  lemma {:induction false} RetryAgentLoop(maxRetries: nat, fuel: nat, attempts: nat, succeedOn: nat,
                                          s: Counter, trace: seq<Event<Counter>>)
    requires attempts <= maxRetries
    ensures var out := Loop(Run, Single(RetryAgent(0, succeedOn)), maxRetries, fuel, "retry_agent", attempts, s,
                            map["retry_agent" := RetryAgent(attempts, succeedOn)], trace);
      var need := Remaining(attempts, succeedOn);
      var fail := maxRetries - attempts + 1;
      if attempts + need - 1 <= maxRetries then
        && (fuel >= need ==>
              && out.result == Ok(s) && |out.trace| == |trace| + need
              && out.agents == map["retry_agent" := RetryAgent(attempts + need, succeedOn)])
        && (fuel < need ==> out.result == Err(BudgetError("test")))
      else
        && (fuel >= fail ==>
              out.result == Err(RetryExceededError("retry_agent", maxRetries, "not ready")) &&
              |out.trace| == |trace| + fail)
        && (fuel < fail ==> out.result == Err(BudgetError("test")))
    decreases fuel
  {
    if fuel > 0 {
      if attempts + 1 < succeedOn && attempts < maxRetries {
        RetryAgentStep(maxRetries, fuel, attempts, succeedOn, s, trace);
        assert Remaining(attempts, succeedOn) == Remaining(attempts + 1, succeedOn) + 1;
        RetryAgentLoop(maxRetries, fuel - 1, attempts + 1, succeedOn, s,
                       trace + [Event("retry_agent", attempts, s, Ok((s, Retry(RetryHint("not ready")))))]);
      } else {
        RetryAgentLastStep(maxRetries, fuel, attempts, succeedOn, s, trace);
      }
    }
  }

  /**
   * A fresh `RetryAgent` that succeeds on attempt k (k >= 1) completes with
   * the initial state after k invocations when k - 1 retries fit in the
   * budget and k steps in the step budget; with more than max_retries + 1
   * attempts needed it fails after max_retries + 1 invocations.
   */
  lemma RetryAgentOutcome(maxSteps: nat, maxRetries: nat, succeedOn: nat, s: Counter)
    requires succeedOn >= 1
    ensures var out := Exec(Run, Single(RetryAgent(0, succeedOn)), maxSteps, maxRetries, s);
      && (succeedOn <= maxRetries + 1 && succeedOn <= maxSteps ==>
            && out.result == Ok(s) && |out.trace| == succeedOn
            && out.agents == map["retry_agent" := RetryAgent(succeedOn, succeedOn)])
      && (succeedOn > maxRetries + 1 && maxSteps > maxRetries ==>
            && out.result == Err(RetryExceededError("retry_agent", maxRetries, "not ready"))
            && |out.trace| == maxRetries + 1)
  {
    RetryAgentLoop(maxRetries, maxSteps, 0, succeedOn, s, []);
  }

  /** The test `retry_succeeds_within_limit`: success on the third attempt under the default budgets. */
  lemma RetrySucceedsWithinLimit()
    ensures Exec(Run, Single(RetryAgent(0, 3)), DefaultMaxSteps, DefaultMaxRetries, Counter(0)).result == Ok(Counter(0))
  {
    RetryAgentOutcome(DefaultMaxSteps, DefaultMaxRetries, 3, Counter(0));
  }

  /**
   * `WaitOnce` waits once and then finishes: with a retry budget of at least
   * one and two steps it succeeds after two invocations; with a zero retry
   * budget its wait already exceeds the budget.
   */
  lemma WaitOnceOutcome(maxSteps: nat, maxRetries: nat, s: Counter)
    requires maxSteps >= 2
    ensures var out := Exec(Run, Single(WaitOnce(false)), maxSteps, maxRetries, s);
      && (maxRetries >= 1 ==> out.result == Ok(s) && |out.trace| == 2)
      && (maxRetries == 0 ==> out.result == Err(WaitExceededError("wait_once", 0)) && |out.trace| == 1)
  {
    var wf := Single(WaitOnce(false));
    var agents1 := map["wait_once" := WaitOnce(true)];
    assert wf.agents["wait_once" := WaitOnce(true)] == agents1;
    assert agents1["wait_once" := WaitOnce(true)] == agents1;
    var e1 := Event("wait_once", 0, s, Ok((s, Wait(1))));
    if maxRetries >= 1 {
      assert Interpret(wf.defaultNext, maxRetries, "wait_once", 0, Wait(1)) == Jump("wait_once", 1);
      assert Run(WaitOnce(false), s) == (WaitOnce(true), Ok((s, Wait(1))));
      assert Exec(Run, wf, maxSteps, maxRetries, s)
          == Loop(Run, wf, maxRetries, maxSteps, "wait_once", 0, s, wf.agents, []);
      assert Loop(Run, wf, maxRetries, maxSteps, "wait_once", 0, s, wf.agents, [])
          == Loop(Run, wf, maxRetries, maxSteps - 1, "wait_once", 1, s, agents1, [] + [e1]);
      assert [] + [e1] == [e1];
      var e2 := Event("wait_once", 1, s, Ok((s, Done)));
      assert Loop(Run, wf, maxRetries, maxSteps - 1, "wait_once", 1, s, agents1, [e1])
          == RunRecord(Ok(s), agents1, [e1, e2]);
    }
  }
}
