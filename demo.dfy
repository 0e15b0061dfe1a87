/**
 * The end-to-end example (examples/agent_workflow_simple.rs): `add_one`
 * increments a counter and continues along its default edge to `stop`,
 * which finishes once the counter reaches 3 and otherwise jumps back to
 * `add_one`. The counter is an unbounded integer here.
 */
module SimpleDemo {
  import opened Wrappers
  import opened Agents
  import opened Workflows
  import opened Runners

  datatype State = State(n: int)

  datatype DemoAgent = AddOne | StopAtThree

  function Name(a: DemoAgent): string
  {
    match a
    case AddOne => "add_one"
    case StopAtThree => "stop"
  }

  /** Both agents are stateless and never fail; what they do to `n` is summed up by `DemoLoop`. */
  function Run(a: DemoAgent, s: State): (r: (DemoAgent, StepResult<State>))
    ensures r.0 == a && r.1.Ok?
  {
    match a
    case AddOne => (AddOne, Ok((State(s.n + 1), Continue)))
    case StopAtThree =>
      if s.n >= 3 then (StopAtThree, Ok((s, Done))) else (StopAtThree, Ok((s, Next("add_one"))))
  }

  function DemoAgents(): map<string, DemoAgent>
  {
    map["add_one" := AddOne, "stop" := StopAtThree]
  }

  /** The workflow `main` builds. */
  function DemoWorkflow(): Workflow<DemoAgent>
  {
    Workflow("demo", "add_one", DemoAgents(), map["add_one" := "stop"])
  }

  /** `register(AddOne).register(StopAtThree).start_at("add_one").then("stop")`. */
  function DemoCalls(): seq<Call<DemoAgent>>
  {
    [RegisterCall(AddOne), RegisterCall(StopAtThree), StartAtCall("add_one"), ThenCall("stop")]
  }

  /** The four calls of `main`, applied one at a time. */
  lemma DemoReplay()
    ensures Replay(Name, Fresh("demo"), DemoCalls())
         == Apply(Name, Apply(Name, Apply(Name, Apply(Name, Fresh("demo"), RegisterCall(AddOne)),
                  RegisterCall(StopAtThree)), StartAtCall("add_one")), ThenCall("stop"))
  {
    var calls := DemoCalls();
    var b0 := Fresh<DemoAgent>("demo");
    var b1 := Apply(Name, b0, RegisterCall(AddOne));
    var b2 := Apply(Name, b1, RegisterCall(StopAtThree));
    var b3 := Apply(Name, b2, StartAtCall("add_one"));
    assert calls[..1][..0] == [];
    assert Replay(Name, b0, calls[..1]) == b1;
    assert calls[..2][..1] == calls[..1];
    assert Replay(Name, b0, calls[..2]) == b2;
    assert calls[..3][..2] == calls[..2];
    assert Replay(Name, b0, calls[..3]) == b3;
    assert calls[..3] == calls[..|calls| - 1];
  }

  /** The builder chain of `main` builds a valid workflow starting at `add_one` with the one edge `add_one -> stop`. */
  lemma DemoBuilds(r: Result<Workflow<DemoAgent>, WorkflowError>)
    requires BuildOutcome(Replay(Name, Fresh("demo"), DemoCalls()), r)
    ensures r == Ok(DemoWorkflow()) && Valid(DemoWorkflow())
  {
    DemoReplay();
    var b := Replay(Name, Fresh("demo"), DemoCalls());
    assert b.agents == DemoAgents();
    forall t | t in b.defaultNext.Values
      ensures t in b.agents
    {
      var k :| k in b.defaultNext && b.defaultNext[k] == t;
    }
    BuildOkIffValid(b, r);
  }

  /** How many invocations a run from `n` takes: two per pass through the loop. */
  function Need(n: int): nat
  {
    if n >= 2 then 2 else 6 - 2 * n
  }

  function Max(a: int, b: int): int
  {
    if a >= b then a else b
  }

  /** One invocation of `add_one`: the counter goes up and the loop continues at `stop`. */
  lemma AddOneStep(maxRetries: nat, fuel: nat, n: int, trace: seq<Event<State>>)
    requires fuel >= 1
    ensures Loop(Run, DemoWorkflow(), maxRetries, fuel, "add_one", 0, State(n), DemoAgents(), trace)
         == Loop(Run, DemoWorkflow(), maxRetries, fuel - 1, "stop", 0, State(n + 1), DemoAgents(),
                 trace + [Event("add_one", 0, State(n), Ok((State(n + 1), Continue)))])
  {
    assert DemoAgents()["add_one" := AddOne] == DemoAgents();
  }

  /** One invocation of `stop`: the run finishes once the counter is 3 or more, and otherwise goes back to `add_one`. */
  lemma StopStep(maxRetries: nat, fuel: nat, n: int, trace: seq<Event<State>>)
    requires fuel >= 1
    ensures n >= 3 ==>
      Loop(Run, DemoWorkflow(), maxRetries, fuel, "stop", 0, State(n), DemoAgents(), trace)
      == RunRecord(Ok(State(n)), DemoAgents(), trace + [Event("stop", 0, State(n), Ok((State(n), Done)))])
    ensures n < 3 ==>
      Loop(Run, DemoWorkflow(), maxRetries, fuel, "stop", 0, State(n), DemoAgents(), trace)
      == Loop(Run, DemoWorkflow(), maxRetries, fuel - 1, "add_one", 0, State(n), DemoAgents(),
              trace + [Event("stop", 0, State(n), Ok((State(n), Next("add_one"))))])
  {
    assert DemoAgents()["stop" := StopAtThree] == DemoAgents();
  }

  /**
   * From `add_one` with counter `n`: given `Need(n)` iterations the loop
   * finishes with counter `max(n + 1, 3)` after exactly `Need(n)`
   * invocations, otherwise it runs out of budget.
   */
  lemma {:induction false} DemoLoop(maxRetries: nat, fuel: nat, n: int, trace: seq<Event<State>>)
    ensures var out := Loop(Run, DemoWorkflow(), maxRetries, fuel, "add_one", 0, State(n), DemoAgents(), trace);
      && (fuel >= Need(n) ==> out.result == Ok(State(Max(n + 1, 3))) && |out.trace| == |trace| + Need(n))
      && (fuel < Need(n) ==> out.result == Err(BudgetError("demo")) && |out.trace| == |trace| + fuel)
    decreases fuel
  {
    if fuel >= 1 {
      var t1 := trace + [Event("add_one", 0, State(n), Ok((State(n + 1), Continue)))];
      AddOneStep(maxRetries, fuel, n, trace);
      if fuel == 1 {
        assert Need(n) >= 2;
      } else {
        StopStep(maxRetries, fuel - 1, n + 1, t1);
        if n + 1 < 3 {
          var t2 := t1 + [Event("stop", 0, State(n + 1), Ok((State(n + 1), Next("add_one"))))];
          assert Need(n) == Need(n + 1) + 2 && Max(n + 1, 3) == Max(n + 2, 3);
          DemoLoop(maxRetries, fuel - 2, n + 1, t2);
        } else {
          assert Need(n) == 2 && Max(n + 1, 3) == n + 1;
        }
      }
    }
  }

  /**
   * A run from `add_one` leaves the agents as they were and only appends to
   * the trace, and every invocation happens with the retry counter at 0.
   */
  lemma {:induction false} DemoLoopShape(maxRetries: nat, fuel: nat, n: int, trace: seq<Event<State>>)
    ensures var out := Loop(Run, DemoWorkflow(), maxRetries, fuel, "add_one", 0, State(n), DemoAgents(), trace);
      && out.agents == DemoAgents()
      && |trace| <= |out.trace|
      && out.trace[..|trace|] == trace
      && (forall k :: |trace| <= k < |out.trace| ==> out.trace[k].retries == 0)
    decreases fuel
  {
    var out := Loop(Run, DemoWorkflow(), maxRetries, fuel, "add_one", 0, State(n), DemoAgents(), trace);
    if fuel >= 1 {
      var t1 := trace + [Event("add_one", 0, State(n), Ok((State(n + 1), Continue)))];
      AddOneStep(maxRetries, fuel, n, trace);
      AppendPrefix(trace, [Event("add_one", 0, State(n), Ok((State(n + 1), Continue)))]);
      if fuel >= 2 {
        StopStep(maxRetries, fuel - 1, n + 1, t1);
        if n + 1 < 3 {
          var t2 := t1 + [Event("stop", 0, State(n + 1), Ok((State(n + 1), Next("add_one"))))];
          DemoLoopShape(maxRetries, fuel - 2, n + 1, t2);
          AppendPrefix(t1, [Event("stop", 0, State(n + 1), Ok((State(n + 1), Next("add_one"))))]);
          PrefixShrinks(t2, t1, |trace|);
          PrefixShrinks(out.trace, t2, |trace|);
          forall k | |trace| <= k < |out.trace|
            ensures out.trace[k].retries == 0
          {
            if k < |t2| {
              assert out.trace[k] == t2[k];
            }
          }
        } else {
          var t2 := t1 + [Event("stop", 0, State(n + 1), Ok((State(n + 1), Done)))];
          AppendPrefix(t1, [Event("stop", 0, State(n + 1), Ok((State(n + 1), Done)))]);
          PrefixShrinks(t2, t1, |trace|);
        }
      }
    }
  }

  /** `main`'s run from 0 with the default budgets ends with `n = 3` after 6 invocations, none of them a retry. */
  lemma DemoFromZero()
    ensures var out := Exec(Run, DemoWorkflow(), DefaultMaxSteps, DefaultMaxRetries, State(0));
      && out.result == Ok(State(3))
      && |out.trace| == 6
      && forall k :: 0 <= k < |out.trace| ==> out.trace[k].retries == 0
  {
    DemoLoop(DefaultMaxRetries, DefaultMaxSteps, 0, []);
    DemoLoopShape(DefaultMaxRetries, DefaultMaxSteps, 0, []);
  }

  /** `main`: build the workflow with the builder object, run it from `n = 0`, and get `n = 3`. */
  method Demo() returns (r: Result<State, StepError>)
    ensures r == Ok(State(3))
  {
    var b := new WorkflowBuilder("demo", Name);
    b.Register(AddOne);
    b.Register(StopAtThree);
    b.StartAt("add_one");
    b.Then("stop");
    DemoReplay();
    var built := b.Build();
    DemoBuilds(built);
    var runner := new Runner(built.value, Run);
    r := runner.Run(State(0));
    DemoFromZero();
  }

  // The quick-start agent of the crate documentation (src/lib.rs): one step
  // that increments the counter and finishes.

  datatype QuickStartAgent = QuickAddOne

  function QuickStartRun(a: QuickStartAgent, s: State): (QuickStartAgent, StepResult<State>)
  {
    (a, Ok((State(s.n + 1), Done)))
  }

  /** Registering only that agent and running from 0 returns the state it produced, `n = 1`. */
  lemma QuickStartYieldsOne(r: Result<Workflow<QuickStartAgent>, WorkflowError>)
    requires BuildOutcome(Replay(_ => "add_one", Fresh("demo"), [RegisterCall(QuickAddOne)]), r)
    ensures r.Ok?
    ensures Exec(QuickStartRun, r.value, DefaultMaxSteps, DefaultMaxRetries, State(0)).result == Ok(State(1))
  {
    var calls: seq<Call<QuickStartAgent>> := [RegisterCall(QuickAddOne)];
    assert calls[..0] == [];
    var b := Replay(_ => "add_one", Fresh("demo"), calls);
    assert b.agents == map["add_one" := QuickAddOne];
    BuildOkIffValid(b, r);
  }
}
