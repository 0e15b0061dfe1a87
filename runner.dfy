/**
 * The workflow interpreter (src/runner.rs).
 *
 * `Runner.Run` is a bounded loop: at most `maxSteps` agent invocations,
 * each looked up by the current step name, with a counter of consecutive
 * `Retry`/`Wait` outcomes that every transition resets. It is proved
 * against `Exec`, a tail-recursive function that also records a ghost
 * trace of every invocation; the lemmas below are about `Exec`.
 *
 * An agent is a value of type `A`; `run` is its step function, returning
 * the agent's own updated value with the step result, so that stateful
 * agents keep their state in the workflow's agent map between steps.
 */
module Runners {
  import opened Wrappers
  import opened Agents
  import opened Workflows

  const DefaultMaxSteps: nat := 10000
  const DefaultMaxRetries: nat := 3

  /** The value of a decimal digit. */
  function DigitValue(c: char): nat
  {
    if '0' <= c <= '9' then c as int - '0' as int else 0
  }

  /** The number a string of decimal digits denotes, most significant digit first. */
  function DigitsValue(s: string): nat
  {
    if s == [] then 0 else DigitsValue(s[..|s| - 1]) * 10 + DigitValue(s[|s| - 1])
  }

  /**
   * The decimal text of a number, as `{}` formats a `usize`: digits only,
   * denoting `n`, with no leading zero except for 0 itself.
   */
  function Decimal(n: nat): (r: string)
    ensures |r| >= 1 && forall i :: 0 <= i < |r| ==> '0' <= r[i] <= '9'
    ensures DigitsValue(r) == n
    ensures r[0] == '0' ==> r == "0"
    decreases n
  {
    var d := [('0' as int + n % 10) as char];
    if n < 10 then d
    else
      var p := Decimal(n / 10);
      assert (p + d)[..|p + d| - 1] == p;
      p + d
  }

  /** The error when the step budget runs out. */
  function BudgetError(workflow: string): StepError
  {
    Other("max_steps exceeded (possible infinite loop) in workflow " + workflow)
  }

  /** The error when the current step names no registered agent. */
  function UnknownStepError(step: string): StepError
  {
    Other("unknown step: " + step)
  }

  /** The error when a step asks for `Continue` but has no default edge. */
  function NoDefaultEdgeError(step: string): StepError
  {
    Other("step '" + step + "' returned Continue but no default next step is configured")
  }

  /** The error when `Retry` exceeds the retry budget. */
  function RetryExceededError(step: string, maxRetries: nat, reason: string): StepError
  {
    Other("step '" + step + "' " + "exceeded max retries" + " (" + Decimal(maxRetries) + "): " + reason)
  }

  /** `needle` occurs in `hay` as a contiguous piece. */
  ghost predicate Contains(hay: string, needle: string)
  {
    exists i :: 0 <= i <= |hay| - |needle| && hay[i..][..|needle|] == needle
  }

  /** Both budget errors of a step say that it exceeded its retries. */
  lemma RetryErrorsMentionBudget(step: string, maxRetries: nat, reason: string)
    ensures Contains(RetryExceededError(step, maxRetries, reason).msg, "exceeded max retries")
    ensures Contains(WaitExceededError(step, maxRetries).msg, "exceeded max retries")
  {
    var w := "exceeded max retries";
    var p := "step '" + step + "' ";
    var digits := Decimal(maxRetries);
    ContainsEnd(p, w);
    ContainsExtend(p + w, " (", w);
    ContainsExtend(p + w + " (", digits, w);
    ContainsExtend(p + w + " (" + digits, "): ", w);
    ContainsExtend(p + w + " (" + digits + "): ", reason, w);
    ContainsExtend(p + w + " (" + digits, ") while waiting", w);
  }

  /** A text contains its own ending. */
  lemma ContainsEnd(p: string, w: string)
    ensures Contains(p + w, w)
  {
    assert (p + w)[|p|..][..|w|] == w;
  }

  /** Appending to a text keeps what it contains. */
  lemma ContainsExtend(x: string, y: string, w: string)
    requires Contains(x, w)
    ensures Contains(x + y, w)
  {
    var i :| 0 <= i <= |x| - |w| && x[i..][..|w|] == w;
    assert (x + y)[i..][..|w|] == x[i..][..|w|];
  }

  /** The error when `Wait` exceeds the retry budget. */
  function WaitExceededError(step: string, maxRetries: nat): StepError
  {
    Other("step '" + step + "' " + "exceeded max retries" + " (" + Decimal(maxRetries) + ") while waiting")
  }

  /** What the runner does after a successful step. */
  datatype Decision = Jump(step: string, retries: nat) | Finish | Abort(error: StepError)

  predicate IsRetryLike(o: Outcome)
  {
    o.Retry? || o.Wait?
  }

  /**
   * How the runner interprets one outcome at step `current` with `retries`
   * consecutive retries so far.
   */
  function Interpret(edges: map<string, string>, maxRetries: nat, current: string, retries: nat,
                     outcome: Outcome): (d: Decision)
    ensures d.Finish? <==> outcome.Done?
    ensures outcome.Fail? ==> d == Abort(Other(outcome.msg))
    ensures outcome.Next? ==> d == Jump(outcome.step, 0)
    ensures outcome.Continue? ==>
      d == if current in edges then Jump(edges[current], 0) else Abort(NoDefaultEdgeError(current))
    ensures IsRetryLike(outcome) ==> (d.Jump? <==> retries < maxRetries)
    ensures d.Jump? && IsRetryLike(outcome) ==> d.step == current && d.retries == retries + 1 <= maxRetries
    ensures d.Jump? && !IsRetryLike(outcome) ==> d.retries == 0
    ensures outcome.Retry? && retries >= maxRetries ==>
      d == Abort(RetryExceededError(current, maxRetries, outcome.hint.reason))
    ensures outcome.Wait? && retries >= maxRetries ==> d == Abort(WaitExceededError(current, maxRetries))
  {
    match outcome
    case Done => Finish
    case Fail(msg) => Abort(OtherError(msg))
    case Next(step) => Jump(step, 0)
    case Continue =>
      if current in edges then Jump(edges[current], 0) else Abort(NoDefaultEdgeError(current))
    case Retry(hint) =>
      if retries + 1 > maxRetries then Abort(RetryExceededError(current, maxRetries, hint.reason))
      else Jump(current, retries + 1)
    case Wait(_) =>
      if retries + 1 > maxRetries then Abort(WaitExceededError(current, maxRetries))
      else Jump(current, retries + 1)
  }

  /** Where the loop goes after one invocation: it stops with a result, or goes on at a step. */
  datatype Step<S> = Stop(result: Result<S, StepError>) | Go(next: string, retries: nat, state: S)

  /** What the runner does with the result `res` of invoking the agent at `current`. */
  function After<S>(edges: map<string, string>, maxRetries: nat, current: string, retries: nat,
                    res: StepResult<S>): Step<S>
  {
    match res
    case Err(e) => Stop(Err(e))
    case Ok((state', outcome)) =>
      match Interpret(edges, maxRetries, current, retries, outcome)
      case Finish => Stop(Ok(state'))
      case Abort(e) => Stop(Err(e))
      case Jump(next, retries') => Go(next, retries', state')
  }

  /** One agent invocation: the step, the retry counter before it, the state passed in and what came back. */
  datatype Event<S> = Event(step: string, retries: nat, input: S, result: StepResult<S>)

  /** The whole effect of a run: its result, the agents afterwards, and every invocation in order. */
  datatype RunRecord<A, S> = RunRecord(result: Result<S, StepError>, agents: map<string, A>, trace: seq<Event<S>>)

  /**
   * The interpreter loop with `fuel` iterations left, at step `current`
   * with `retries` consecutive retries, the current state and agents, and
   * the invocations so far in `trace`.
   */
  function Loop<A, S>(run: (A, S) -> (A, StepResult<S>), wf: Workflow<A>, maxRetries: nat, fuel: nat,
                      current: string, retries: nat, state: S, agents: map<string, A>,
                      trace: seq<Event<S>>): RunRecord<A, S>
    decreases fuel
  {
    if fuel == 0 then RunRecord(Err(BudgetError(wf.name)), agents, trace)
    else if current !in agents then RunRecord(Err(UnknownStepError(current)), agents, trace)
    else
      var (agent', res) := run(agents[current], state);
      var agents' := agents[current := agent'];
      var trace' := trace + [Event(current, retries, state, res)];
      match After(wf.defaultNext, maxRetries, current, retries, res)
      case Stop(result) => RunRecord(result, agents', trace')
      case Go(next, retries', state') => Loop(run, wf, maxRetries, fuel - 1, next, retries', state', agents', trace')
  }

  /** A run of `wf` from `init`: the loop from the start step with no retries and an empty trace. */
  function Exec<A, S>(run: (A, S) -> (A, StepResult<S>), wf: Workflow<A>, maxSteps: nat, maxRetries: nat,
                      init: S): RunRecord<A, S>
  {
    Loop(run, wf, maxRetries, maxSteps, wf.start, 0, init, wf.agents, [])
  }

  // ---------------------------------------------------------------------
  // The runner object
  // ---------------------------------------------------------------------

  class Runner<A, S> {
    var wf: Workflow<A>
    var maxSteps: nat
    var maxRetries: nat
    const run: (A, S) -> (A, StepResult<S>)

    /** `Runner::new(wf)`: a step budget of 10000 and a retry budget of 3. */
    constructor (wf: Workflow<A>, run: (A, S) -> (A, StepResult<S>))
      ensures this.wf == wf && this.run == run
      ensures maxSteps == DefaultMaxSteps && maxRetries == DefaultMaxRetries
    {
      this.wf := wf;
      this.run := run;
      maxSteps := DefaultMaxSteps;
      maxRetries := DefaultMaxRetries;
    }

    /** `with_max_steps`: changes the step budget only. */
    method WithMaxSteps(maxSteps: nat)
      modifies this`maxSteps
      ensures this.maxSteps == maxSteps
    {
      this.maxSteps := maxSteps;
    }

    /** `with_max_retries`: changes the retry budget only. */
    method WithMaxRetries(maxRetries: nat)
      modifies this`maxRetries
      ensures this.maxRetries == maxRetries
    {
      this.maxRetries := maxRetries;
    }

    /**
     * `run(state, ctx)`: the result is that of `Exec`, and the agents in
     * the workflow are replaced by the ones the run left behind.
     */
    method Run(init: S) returns (r: Result<S, StepError>)
      modifies this`wf
      ensures r == Exec(run, old(wf), maxSteps, maxRetries, init).result
      ensures wf == old(wf).(agents := Exec(run, old(wf), maxSteps, maxRetries, init).agents)
    {
      ghost var wf0 := wf;
      var run, maxSteps, maxRetries := this.run, this.maxSteps, this.maxRetries;
      ghost var goal := Exec(run, wf0, maxSteps, maxRetries, init);
      var current := wf.start;
      var retries: nat := 0;
      var state := init;
      ghost var trace: seq<Event<S>> := [];
      var i: nat := 0;
      while i < maxSteps
        invariant i <= maxSteps
        invariant wf == wf0.(agents := wf.agents)
        invariant goal == Loop(run, wf0, maxRetries, maxSteps - i, current, retries, state, wf.agents, trace)
        decreases maxSteps - i
      {
        var found := AgentFor(wf, current);
        if found.None? {
          return Err(UnknownStepError(current));
        }
        var agent', res := run(found.value, state).0, run(found.value, state).1;
        ghost var after := After(wf0.defaultNext, maxRetries, current, retries, res);
        wf := wf.(agents := wf.agents[current := agent']);
        trace := trace + [Event(current, retries, state, res)];
        assert after.Stop? ==> goal == RunRecord(after.result, wf.agents, trace);
        assert after.Go? ==>
          goal == Loop(run, wf0, maxRetries, maxSteps - (i + 1), after.next, after.retries, after.state, wf.agents, trace);
        if res.Err? {
          return Err(res.error);
        }
        var outcome;
        state, outcome := res.value.0, res.value.1;
        match outcome {
          case Done =>
            return Ok(state);
          case Fail(msg) =>
            return Err(OtherError(msg));
          case Next(step) =>
            current := step;
            retries := 0;
          case Continue =>
            var next := DefaultNext(wf, current);
            if next.Some? {
              current := next.value;
              retries := 0;
            } else {
              return Err(NoDefaultEdgeError(current));
            }
          case Retry(hint) =>
            retries := retries + 1;
            if retries > maxRetries {
              return Err(RetryExceededError(current, maxRetries, hint.reason));
            }
          case Wait(_) =>
            retries := retries + 1;
            if retries > maxRetries {
              return Err(WaitExceededError(current, maxRetries));
            }
        }
        i := i + 1;
      }
      return Err(BudgetError(wf.name));
    }
  }

  // ---------------------------------------------------------------------
  // Properties of runs
  // ---------------------------------------------------------------------

  /** `e` returned `Ok`, and its outcome moves the runner to `step` with `retries`, passing on `input`. */
  ghost predicate LeadsTo<S>(edges: map<string, string>, maxRetries: nat, e: Event<S>,
                             step: string, retries: nat, input: S)
  {
    && e.result.Ok?
    && Interpret(edges, maxRetries, e.step, e.retries, e.result.value.1) == Jump(step, retries)
    && input == e.result.value.0
  }

  /** Every invocation but the last succeeded and led to the next one. */
  ghost predicate Chained<S>(edges: map<string, string>, maxRetries: nat, trace: seq<Event<S>>)
  {
    forall i :: 0 <= i < |trace| - 1 ==>
      LeadsTo(edges, maxRetries, trace[i], trace[i + 1].step, trace[i + 1].retries, trace[i + 1].input)
  }

  /**
   * The loop only appends to the trace, at most one invocation per unit of
   * fuel, starting with one at the current step; it leaves the set of
   * registered names alone, and invokes nothing exactly when the fuel is
   * spent or the current step is unknown.
   */
  lemma {:induction false} LoopTrace<A, S>(run: (A, S) -> (A, StepResult<S>), wf: Workflow<A>, maxRetries: nat,
                                           fuel: nat, current: string, retries: nat, state: S,
                                           agents: map<string, A>, trace: seq<Event<S>>)
    ensures var out := Loop(run, wf, maxRetries, fuel, current, retries, state, agents, trace);
      && |trace| <= |out.trace| <= |trace| + fuel
      && out.trace[..|trace|] == trace
      && out.agents.Keys == agents.Keys
      && (|out.trace| == |trace| <==> fuel == 0 || current !in agents)
      && (|out.trace| > |trace| ==>
            out.trace[|trace|].step == current && out.trace[|trace|].retries == retries &&
            out.trace[|trace|].input == state)
    decreases fuel
  {
    if fuel > 0 && current in agents {
      var (agent', res) := run(agents[current], state);
      var agents' := agents[current := agent'];
      var trace' := trace + [Event(current, retries, state, res)];
      match After(wf.defaultNext, maxRetries, current, retries, res)
      case Stop(_) =>
      case Go(next, retries', state') =>
        var out := Loop(run, wf, maxRetries, fuel - 1, next, retries', state', agents', trace');
        assert Loop(run, wf, maxRetries, fuel, current, retries, state, agents, trace) == out;
        LoopTrace(run, wf, maxRetries, fuel - 1, next, retries', state', agents', trace');
        PrefixOfExtension(out.trace, trace, Event(current, retries, state, res));
    }
  }

  /** A sequence that starts with `t + [e]` starts with `t`, and has `e` right after it. */
  lemma PrefixOfExtension<T>(s: seq<T>, t: seq<T>, e: T)
    requires |t| < |s| && s[..|t| + 1] == t + [e]
    ensures s[..|t|] == t && s[|t|] == e
  {
    assert s[..|t|] == (t + [e])[..|t|];
  }

  /** A sequence starts with each of its parts' first part. */
  lemma AppendPrefix<T>(t: seq<T>, u: seq<T>)
    ensures (t + u)[..|t|] == t
  {
  }

  /** A prefix of a prefix is a prefix. */
  lemma PrefixShrinks<T>(s: seq<T>, t: seq<T>, n: nat)
    requires n <= |t| <= |s| && s[..|t|] == t
    ensures s[..n] == t[..n]
  {
  }

  /** The loop keeps the trace chained. */
  lemma {:induction false} LoopChained<A, S>(run: (A, S) -> (A, StepResult<S>), wf: Workflow<A>, maxRetries: nat,
                                             fuel: nat, current: string, retries: nat, state: S,
                                             agents: map<string, A>, trace: seq<Event<S>>)
    requires Chained(wf.defaultNext, maxRetries, trace)
    requires trace != [] ==> LeadsTo(wf.defaultNext, maxRetries, trace[|trace| - 1], current, retries, state)
    ensures Chained(wf.defaultNext, maxRetries, Loop(run, wf, maxRetries, fuel, current, retries, state, agents, trace).trace)
    decreases fuel
  {
    if fuel > 0 && current in agents {
      var (agent', res) := run(agents[current], state);
      var agents' := agents[current := agent'];
      var e := Event(current, retries, state, res);
      var trace' := trace + [e];
      assert Chained(wf.defaultNext, maxRetries, trace') by {
        forall i | 0 <= i < |trace'| - 1
          ensures LeadsTo(wf.defaultNext, maxRetries, trace'[i], trace'[i + 1].step, trace'[i + 1].retries, trace'[i + 1].input)
        {
          if i < |trace| - 1 {
            assert trace'[i] == trace[i] && trace'[i + 1] == trace[i + 1];
          } else {
            assert trace'[i] == trace[|trace| - 1] && trace'[i + 1] == e;
          }
        }
      }
      if res.Ok? {
        var (state', outcome) := res.value;
        var d := Interpret(wf.defaultNext, maxRetries, current, retries, outcome);
        if d.Jump? {
          assert trace'[|trace'| - 1] == e;
          LoopChained(run, wf, maxRetries, fuel - 1, d.step, d.retries, state', agents', trace');
        }
      }
    }
  }

  /**
   * How a run ends after its last invocation `e`: the agent's own error
   * propagates unchanged, `Done` returns the state that invocation produced,
   * an abort returns its error, and a final jump means the budget ran out
   * (`spent`), or else the target is not one of the registered names `keys`.
   */
  ghost predicate EndsWith<S>(edges: map<string, string>, maxRetries: nat, name: string, keys: set<string>,
                              e: Event<S>, spent: bool, result: Result<S, StepError>)
  {
    match e.result
    case Err(err) => result == Err(err)
    case Ok((s, o)) =>
      match Interpret(edges, maxRetries, e.step, e.retries, o)
      case Finish => result == Ok(s)
      case Abort(err) => result == Err(err)
      case Jump(next, _) =>
        if spent then result == Err(BudgetError(name))
        else next !in keys && result == Err(UnknownStepError(next))
  }

  /** The loop ends as its last invocation says; the budget is spent when it made `fuel` invocations. */
  lemma {:induction false} LoopEnd<A, S>(run: (A, S) -> (A, StepResult<S>), wf: Workflow<A>, maxRetries: nat,
                                         fuel: nat, current: string, retries: nat, state: S,
                                         agents: map<string, A>, trace: seq<Event<S>>)
    ensures var out := Loop(run, wf, maxRetries, fuel, current, retries, state, agents, trace);
      |out.trace| > |trace| ==>
        EndsWith(wf.defaultNext, maxRetries, wf.name, agents.Keys, out.trace[|out.trace| - 1],
                 |out.trace| == |trace| + fuel, out.result)
    decreases fuel
  {
    var out := Loop(run, wf, maxRetries, fuel, current, retries, state, agents, trace);
    if fuel > 0 && current in agents {
      var (agent', res) := run(agents[current], state);
      var agents' := agents[current := agent'];
      var e := Event(current, retries, state, res);
      var trace' := trace + [e];
      assert agents'.Keys == agents.Keys;
      assert trace'[|trace'| - 1] == e;
      if res.Ok? {
        var (state', outcome) := res.value;
        var d := Interpret(wf.defaultNext, maxRetries, current, retries, outcome);
        if d.Jump? {
          assert out == Loop(run, wf, maxRetries, fuel - 1, d.step, d.retries, state', agents', trace');
          LoopEnd(run, wf, maxRetries, fuel - 1, d.step, d.retries, state', agents', trace');
          LoopTrace(run, wf, maxRetries, fuel - 1, d.step, d.retries, state', agents', trace');
          if |out.trace| == |trace'| {
            if fuel == 1 {
              assert out.result == Err(BudgetError(wf.name));
            } else {
              assert d.step !in agents.Keys;
              assert out.result == Err(UnknownStepError(d.step));
            }
          }
        } else {
          assert out.trace == trace';
        }
      } else {
        assert out == RunRecord(Err(res.error), agents', trace');
      }
    }
  }

  /** A run invokes agents at most `maxSteps` times; with no budget it invokes none and fails. */
  lemma ExecWithinBudget<A, S>(run: (A, S) -> (A, StepResult<S>), wf: Workflow<A>, maxSteps: nat,
                               maxRetries: nat, init: S)
    ensures |Exec(run, wf, maxSteps, maxRetries, init).trace| <= maxSteps
    ensures maxSteps == 0 ==> Exec(run, wf, maxSteps, maxRetries, init) == RunRecord(Err(BudgetError(wf.name)), wf.agents, [])
  {
    LoopTrace(run, wf, maxRetries, maxSteps, wf.start, 0, init, wf.agents, []);
  }

  /**
   * The invocations of a run form a chain: the first is at the start step
   * with no retries and the initial state, and each later one is where the
   * previous outcome sent the runner, with the state the previous one returned.
   */
  lemma ExecChained<A, S>(run: (A, S) -> (A, StepResult<S>), wf: Workflow<A>, maxSteps: nat,
                          maxRetries: nat, init: S)
    ensures var t := Exec(run, wf, maxSteps, maxRetries, init).trace;
      && Chained(wf.defaultNext, maxRetries, t)
      && (t != [] ==> t[0].step == wf.start && t[0].retries == 0 && t[0].input == init)
  {
    LoopChained(run, wf, maxRetries, maxSteps, wf.start, 0, init, wf.agents, []);
    LoopTrace(run, wf, maxRetries, maxSteps, wf.start, 0, init, wf.agents, []);
  }

  /**
   * The ways a run ends. With no invocation: the budget was zero, or the
   * start step is unknown. Otherwise, after the last invocation:
   * an agent error propagates unchanged, `Done` returns the state that
   * invocation returned, `Fail(msg)` (and every other abort) returns its
   * error, and a final transition means the budget is spent, or else the
   * target is not registered: a spent budget ends the loop before the next
   * step is looked up.
   */
  lemma ExecEnds<A, S>(run: (A, S) -> (A, StepResult<S>), wf: Workflow<A>, maxSteps: nat,
                       maxRetries: nat, init: S)
    ensures var out := Exec(run, wf, maxSteps, maxRetries, init);
      if out.trace == [] then
        || (maxSteps == 0 && out.result == Err(BudgetError(wf.name)))
        || (maxSteps > 0 && wf.start !in wf.agents && out.result == Err(UnknownStepError(wf.start)))
      else
        var e := out.trace[|out.trace| - 1];
        match e.result
        case Err(err) => out.result == Err(err)
        case Ok((s, o)) =>
          match Interpret(wf.defaultNext, maxRetries, e.step, e.retries, o)
          case Finish => out.result == Ok(s)
          case Abort(err) => out.result == Err(err)
          case Jump(next, _) =>
            if |out.trace| == maxSteps then out.result == Err(BudgetError(wf.name))
            else next !in wf.agents && out.result == Err(UnknownStepError(next))
  {
    LoopEnd(run, wf, maxRetries, maxSteps, wf.start, 0, init, wf.agents, []);
    LoopTrace(run, wf, maxRetries, maxSteps, wf.start, 0, init, wf.agents, []);
  }

  /** A successful run ends with `Done`, returning the state of its last invocation. */
  lemma ExecOkIsDone<A, S>(run: (A, S) -> (A, StepResult<S>), wf: Workflow<A>, maxSteps: nat,
                           maxRetries: nat, init: S)
    requires Exec(run, wf, maxSteps, maxRetries, init).result.Ok?
    ensures var out := Exec(run, wf, maxSteps, maxRetries, init);
      out.trace != [] && out.trace[|out.trace| - 1].result == Ok((out.result.value, Done))
  {
    ExecEnds(run, wf, maxSteps, maxRetries, init);
  }

  /**
   * A first step that answers `Fail(msg)` ends the run at once with an
   * uncategorised error whose text is exactly `msg`.
   */
  lemma FailStopsAtOnce<A, S>(run: (A, S) -> (A, StepResult<S>), wf: Workflow<A>, maxSteps: nat,
                              maxRetries: nat, init: S, msg: string)
    requires maxSteps > 0 && wf.start in wf.agents
    requires run(wf.agents[wf.start], init).1.Ok? && run(wf.agents[wf.start], init).1.value.1 == Fail(msg)
    ensures var out := Exec(run, wf, maxSteps, maxRetries, init);
      out.result == Err(Other(msg)) && Display(out.result.error) == msg && |out.trace| == 1
  {
  }

  /**
   * The retry counter of every invocation counts the consecutive `Retry`
   * and `Wait` outcomes at that same step just before it: it never exceeds
   * the budget, those invocations were all at this step, and the one before
   * them (if any) ended with a transition, after which the counter was 0.
   */
  lemma {:induction false} RetryStreak<S>(edges: map<string, string>, maxRetries: nat, trace: seq<Event<S>>, i: nat)
    requires Chained(edges, maxRetries, trace)
    requires trace != [] ==> trace[0].retries == 0
    requires i < |trace|
    ensures trace[i].retries <= i && trace[i].retries <= maxRetries
    ensures forall j :: i - trace[i].retries <= j < i ==>
      trace[j].step == trace[i].step && trace[j].result.Ok? && IsRetryLike(trace[j].result.value.1)
    ensures i > trace[i].retries ==>
      var prev := trace[i - trace[i].retries - 1];
      prev.result.Ok? && !IsRetryLike(prev.result.value.1)
    decreases i
  {
    if i > 0 {
      RetryStreak(edges, maxRetries, trace, i - 1);
      var p := trace[i - 1];
      assert LeadsTo(edges, maxRetries, p, trace[i].step, trace[i].retries, trace[i].input);
    }
  }

  /** `a` answers every call with `Retry` for `reason` and stays as it is. */
  ghost predicate AlwaysRetries<A, S(!new)>(run: (A, S) -> (A, StepResult<S>), a: A, reason: string)
  {
    forall s :: run(a, s).0 == a && run(a, s).1.Ok? && run(a, s).1.value.1 == Retry(RetryHint(reason))
  }

  /**
   * An agent at the start step that answers every call with `Retry` is
   * invoked exactly `maxRetries + 1` times, or as often as the step budget
   * allows, and the run fails with the retry-budget error carrying the
   * agent's reason or the step-budget error respectively.
   */
  lemma AlwaysRetryExhausts<A, S(!new)>(run: (A, S) -> (A, StepResult<S>), wf: Workflow<A>, maxSteps: nat,
                                        maxRetries: nat, init: S, reason: string)
    requires wf.start in wf.agents && AlwaysRetries(run, wf.agents[wf.start], reason)
    ensures var out := Exec(run, wf, maxSteps, maxRetries, init);
      && |out.trace| == (if maxSteps <= maxRetries then maxSteps else maxRetries + 1)
      && (maxSteps <= maxRetries ==> out.result == Err(BudgetError(wf.name)))
      && (maxSteps > maxRetries ==> out.result == Err(RetryExceededError(wf.start, maxRetries, reason)))
  {
    RetryLoop(run, wf, maxRetries, maxSteps, 0, init, wf.agents, [], reason);
  }

  lemma {:induction false} RetryLoop<A, S(!new)>(run: (A, S) -> (A, StepResult<S>), wf: Workflow<A>, maxRetries: nat,
                                                 fuel: nat, retries: nat, state: S,
                                                 agents: map<string, A>, trace: seq<Event<S>>, reason: string)
    requires wf.start in agents && retries <= maxRetries && AlwaysRetries(run, agents[wf.start], reason)
    ensures var out := Loop(run, wf, maxRetries, fuel, wf.start, retries, state, agents, trace);
      var left := maxRetries - retries + 1;
      && |out.trace| == |trace| + (if fuel < left then fuel else left)
      && (fuel < left ==> out.result == Err(BudgetError(wf.name)))
      && (fuel >= left ==> out.result == Err(RetryExceededError(wf.start, maxRetries, reason)))
    decreases fuel
  {
    if fuel > 0 {
      var (agent', res) := run(agents[wf.start], state);
      var agents' := agents[wf.start := agent'];
      var trace' := trace + [Event(wf.start, retries, state, res)];
      assert agents'[wf.start] == agents[wf.start];
      if retries < maxRetries {
        RetryLoop(run, wf, maxRetries, fuel - 1, retries + 1, res.value.0, agents', trace', reason);
      }
    }
  }
}
