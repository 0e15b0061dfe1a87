# agent-line, modelled in Dafny

agent-line is a small Rust library for workflows of named agents. An agent
runs one step over a caller's state and returns an outcome:

- `Continue` follows the step's default edge.
- `Next(step)` jumps to a named step.
- `Retry(hint)` re-runs the same step.
- `Wait(d)` sleeps, then re-runs the same step.
- `Done` finishes.
- `Fail(msg)` stops with an error.

A `WorkflowBuilder` collects the agents, a start step and the default edges
(`then`). Its `build` checks four things, in a fixed order:

1. no agent name is registered twice;
2. a start step exists;
3. the start step is registered;
4. every edge target is registered.

The `Runner` interprets outcomes. Two budgets stop a run: the number of
steps (10000 by default) and the number of consecutive retries or waits at
one step (3 by default).

Beside this core the model covers:

- the agent vocabulary: outcomes, retry hints, the four error kinds, their
  constructors, conversions and display text;
- the context `Ctx`, with its key/value store and its event log;
- the LLM provider's name parser, endpoint and response reader;
- the code-fence stripper.

Modules, one per file:

- `Wrappers` (`wrappers.dfy`): `Option` and `Result`.
- `Agents` (`agent.dfy`): src/agent.rs.
- `Workflows` (`workflow.dfy`): src/workflow.rs. The builder is a class whose
  methods update its fields. Each method is specified by a pure transition
  `Apply` on a `BuilderState` value. `Replay` folds `Apply` over a whole
  sequence of calls, and the lemmas about builder call sequences are stated
  on `Replay`. `Build` is a loop over the edge targets. It is specified by
  `BuildOutcome`, which leaves open which bad target is reported because
  the source iterates a `HashMap`.
- `WorkflowExamples` (`workflow_examples.dfy`): the builder's test
  scenarios.
- `Runners` (`runner.dfy`): src/runner.rs. `Runner.Run` is the source's
  bounded `for` loop. It is proved equal to `Exec`, a recursive
  interpreter (`Loop`) that also records every invocation. The properties
  of runs are lemmas about `Exec`.
- `RunnerFixtures` (`fixtures.dfy`): the runner's test agents `RetryAgent`,
  `AlwaysRetry` and `WaitOnce`, and what a run of each does.
- `Context` (`ctx.dfy`): src/ctx.rs. `Ctx` is a class with a `map` and a
  `seq` field. `Provider` is a datatype with pure functions. JSON replies are
  values of a small `Json` datatype.
- `Parse` (`parse.dfy`): `strip_code_fences` from src/tools/parse.rs, as an
  `Option`. `None` stands for the panic the source hits on a fenced reply
  of one line.
- `SimpleDemo` (`demo.dfy`): examples/agent_workflow_simple.rs, and the
  quick-start example of the crate documentation.

Agents are values of a type parameter `A`. A workflow gets the name an agent
reports as a function `A -> string`. A runner gets the step function as
`(A, S) -> (A, StepResult<S>)`. That function returns the agent as the step
left it, so agents that count attempts (`RetryAgent`, `WaitOnce`) keep their
state from one invocation to the next, as `&mut self` does in the source.

The code disagrees with its own documentation in one place. The doc comment
on `StepError::Failed` (src/agent.rs:63) says that this variant is the error
of an agent that fails explicitly with `Outcome::Fail`. The runner
(src/runner.rs:44) turns `Fail(msg)` into `StepError::other(msg)`, an
`Other`-kind error. So the runner itself never creates a `Failed` error:
only an agent that returns `Err(Failed(..))` ends a run with one, because
`agent.run(state, ctx)?` (src/runner.rs:39) passes the agent's own error on
unchanged. The model follows the code, in `Runners.Interpret`,
`Runners.FailStopsAtOnce` and the `Err` case of `Runners.ExecEnds`.

Behaviour of the source that the proofs make visible:

- **Edge sources are not checked.** `build` checks only edge targets and
  the start. A `then` issued after `start_at` of an unregistered name leaves
  an edge out of that name in the built workflow
  (`Workflows.EdgeSourceUnchecked`).
- **A one-line fenced reply panics.** On such a reply, `strip_code_fences`
  slices `lines[1..0]` (`Parse.StripLoneFencePanics`,
  `Parse.StripOpeningFencePanics`).
- **The last line of a fenced reply is dropped unconditionally.** It is
  dropped whether or not it is a closing fence: for any last line
  `Parse.StripFencedBlock` gives the body alone, and
  `Parse.StripDropsUnclosedLine` shows "```\ncode" stripping to the empty
  text.

## Model

| member | source | states |
|---|---|---|
| Agents.NewRetryHint | src/agent.rs:46-53 | the hint carries the given reason |
| Agents.InvalidError | src/agent.rs:82-85 | the error is of kind `Invalid` with the given message |
| Agents.OtherError | src/agent.rs:87-90 | the error is of kind `Other` with the given message |
| Agents.TransientError | src/agent.rs:92-95 | the error is of kind `Transient` with the given message |
| Agents.FromHttpError | src/agent.rs:69-73 | an HTTP client error becomes a `Transient` error keeping its text |
| Agents.FromIoError | src/agent.rs:75-79 | an I/O error becomes an `Other` error keeping its text |
| Agents.Display | src/agent.rs:98-107 | the text is the kind's label ("invalid: ", "transient: ", "failed: ", none for `Other`) followed by the message |
| Agents.DisplayInjectiveWithinKind | src/agent.rs:98-107 | two errors of the same kind with the same display text are equal |
| Agents.DisplayForgetsKind | src/agent.rs:98-107 | an `Other` error whose message starts with "invalid: " displays exactly like an `Invalid` error, although the two differ |
| Agents.DisplayExamples | src/agent.rs:137-159 | the display texts of the four kinds for the messages of the tests |
| Workflows.DisplayError | src/workflow.rs:16-24 | the message of each workflow error, with the offending name |
| Workflows.DefaultNext | src/workflow.rs:148-150 | a successor exists exactly for names with a default edge, and it is that edge's target |
| Workflows.AgentFor | src/workflow.rs:144-146 | an agent is found exactly for registered names, and it is the registered one |
| Workflows.Valid | src/workflow.rs:82-109 | specification predicate, no contract: the start and every edge target are registered, which `build` checks |
| Workflows.Fresh | src/workflow.rs:124-133 | specification function, no contract: the state of `Workflow::builder(name)` |
| Workflows.Apply | src/workflow.rs:42-80 | specification function, no contract: the effect of one `register`, `start_at` or `then` call, branch for branch |
| Workflows.Replay | src/workflow.rs:42-80 | specification function, no contract: a call sequence applied left to right |
| Workflows.BuildOutcome | src/workflow.rs:82-109 | specification predicate, no contract: what `build` may return, in the order of its checks |
| Workflows.WorkflowBuilder.constructor | src/workflow.rs:124-133 | a new builder has its name and no start, tail, agents, edges or duplicate |
| Workflows.WorkflowBuilder.Register | src/workflow.rs:42-60 | the new state is one `Apply` of a registration: inserted under its own name, duplicate flagged if the name was present, start and tail set only if unset |
| Workflows.WorkflowBuilder.StartAt | src/workflow.rs:62-66 | the new state has start and tail both set to the step, nothing else changed |
| Workflows.WorkflowBuilder.Then | src/workflow.rs:68-80 | the new state adds the edge tail -> next and moves the tail, or without a tail makes next the start and the tail |
| Workflows.WorkflowBuilder.Build | src/workflow.rs:82-109 | the result satisfies `BuildOutcome`: duplicate first, then missing start, then unregistered start, then some unregistered edge target, else the workflow with the builder's name, start, agents and edges |
| Workflows.ReplayShape | src/workflow.rs:42-80 | after any call sequence: the name is kept, the agents are exactly the registered names, start and tail exist exactly when a call was made, the duplicate flag is set exactly when some name was registered twice, and it names such a name |
| Workflows.MissingStartIffNoCalls | src/workflow.rs:88-89 | `build` fails with `MissingStart` exactly when no builder method was called |
| Workflows.DuplicateWins | src/workflow.rs:42-47 | a name registered twice makes `build` fail with `DuplicateAgent`, whatever the start and edges, naming a name registered twice |
| Workflows.OnlyRegisterStartsAtFirst | src/workflow.rs:49-57 | with only registrations, the first registered agent's name is the start and there are no edges |
| Workflows.OnlyRegisterBuilds | src/workflow.rs:219-226 | with only registrations of distinct names, `build` succeeds, starting at the first one, with no edges |
| Workflows.RegisteredFirst | src/workflow.rs:42-47 | with a registration first, the first registered name is that agent's name |
| Workflows.BuildOkIffValid | src/workflow.rs:82-109 | `build` succeeds exactly when there is no duplicate, the start exists and is registered and every edge target is registered; the workflow returned is valid and is the builder's own data |
| Workflows.ChainCalls | src/workflow.rs:62-80 | `start_at(x)` and n `then` calls are n + 1 calls |
| Workflows.ChainEndsAtLast | src/workflow.rs:62-80 | after `start_at(x).then(y1)…then(yn)` the start is x, the tail is the last name, and agents, name and duplicate flag are unchanged |
| Workflows.ChainBuildsPath | src/workflow.rs:68-80 | when no name is the source of two of its edges, such a chain adds exactly the edges x -> y1, y1 -> y2, …; edges out of every other name are kept |
| Workflows.ChainPrefix | src/workflow.rs:68-80 | a chain is the shorter chain plus one `then`; its sources grow by the previous tail, which the earlier sources do not repeat |
| Workflows.Sources | src/workflow.rs:77 | a chain has as many edge sources as `then` calls |
| Workflows.LastTarget | src/workflow.rs:77 | the target of the last edge out of a name among a chain's edges; there is one exactly when the name is a source |
| Workflows.LastTargetIsLast | src/workflow.rs:77 | that target belongs to an occurrence of the name after which no edge leaves it again |
| Workflows.LastEdgesStep | src/workflow.rs:77 | one more `insert` of an edge out of a name replaces the earlier edge out of it and keeps all others |
| Workflows.ChainLastEdgeWins | src/workflow.rs:68-80 | for any chain, with repeated names allowed, each source's edge goes to the target of its last `then`, and edges out of every other name are kept |
| Workflows.RevisitedChain | src/workflow.rs:68-80 | `start_at(a).then(b).then(a).then(c)` from no edges leaves exactly the edges a -> c and b -> a |
| Workflows.EdgeSourceUnchecked | src/workflow.rs:96-101 | an edge out of an unregistered name does not stop `build` from succeeding |
| WorkflowExamples.BuildValidWorkflow | src/workflow.rs:172-186 | the "a", "b" workflow builds, named "test", starting at "a", with `default_next("a") == "b"` |
| WorkflowExamples.MissingStartOnEmptyBuilder | src/workflow.rs:188-192 | an empty builder fails with `MissingStart` |
| WorkflowExamples.UnknownStartAtStep | src/workflow.rs:194-204 | `start_at("missing")` fails with `UnknownStep("missing")` |
| WorkflowExamples.UnknownThenTarget | src/workflow.rs:206-217 | `then("missing")` fails with `UnknownStep("missing")` |
| WorkflowExamples.DuplicateAgentRejected | src/workflow.rs:228-238 | registering "a" twice fails with `DuplicateAgent("a")` |
| Runners.Decimal | src/runner.rs:65-68 | the budget is printed as a non-empty string of decimal digits whose value (`DigitsValue`) is the budget, with no leading zero |
| Runners.BudgetError | src/runner.rs:86-89 | specification function, no contract: the `Other` error "max_steps exceeded (possible infinite loop) in workflow " followed by the name |
| Runners.UnknownStepError | src/runner.rs:36-37 | specification function, no contract: the `Other` error "unknown step: " followed by the step |
| Runners.NoDefaultEdgeError | src/runner.rs:57-59 | specification function, no contract: the `Other` error for `Continue` without a default edge, naming the step |
| Runners.RetryExceededError | src/runner.rs:65-68 | specification function, no contract: the `Other` error naming the step, the retry budget in decimal and the hint's reason |
| Runners.WaitExceededError | src/runner.rs:75-78 | specification function, no contract: the `Other` error naming the step and the retry budget, "while waiting" |
| Runners.RetryErrorsMentionBudget | src/runner.rs:62-82 | both retry-budget errors contain "exceeded max retries" |
| Runners.Interpret | src/runner.rs:42-83 | `Done` finishes and only it does; `Fail(msg)` aborts with `Other(msg)`; `Next` jumps with the counter reset; `Continue` follows the default edge or aborts naming the step; `Retry`/`Wait` re-run the same step with the counter one higher exactly while that stays within the budget, and over it abort with the retry error carrying the hint's reason, or with the waiting error |
| Runners.After | src/runner.rs:39-83 | specification function, no contract: an agent error stops the loop with that error; otherwise the interpreted outcome stops it or moves it on with the returned state |
| Runners.Loop | src/runner.rs:29-90 | specification function, no contract: the loop with its remaining step budget, recording every invocation; an exhausted budget and an unknown step end it with their errors |
| Runners.Exec | src/runner.rs:29-90 | specification function, no contract: `Loop` from the start step, no retries, the initial state and an empty record |
| Runners.Runner.constructor | src/runner.rs:10-16 | a new runner has step budget 10000 and retry budget 3 |
| Runners.Runner.WithMaxSteps | src/runner.rs:18-22 | only the step budget changes |
| Runners.Runner.WithMaxRetries | src/runner.rs:24-27 | only the retry budget changes |
| Runners.Runner.Run | src/runner.rs:29-90 | the loop returns the result of `Exec` and leaves in the workflow the agents as the run left them |
| Runners.LoopTrace | src/runner.rs:33-84 | the interpreter only appends, at most one invocation per iteration, the first at the current step with the current counter and state; the registered names stay the same |
| Runners.LoopChained | src/runner.rs:39-83 | every recorded invocation but the last led, by its outcome, to the next one's step, counter and state |
| Runners.LoopEnd | src/runner.rs:33-90 | the result is read off the last invocation: the agent's error, `Done`'s state, an abort's error, or after a jump the step budget error when the budget is spent, and otherwise an unknown-step error for an unregistered target |
| Runners.ExecWithinBudget | src/runner.rs:33 | a run invokes agents at most `max_steps` times; with no budget it invokes none and fails with the budget error |
| Runners.ExecChained | src/runner.rs:29-84 | the run's invocations start at the start step with the initial state and no retries, and each follows from the previous outcome |
| Runners.ExecEnds | src/runner.rs:29-90 | every way a run can end, in terms of its last invocation or of an unknown start; after a final jump, the budget error when `max_steps` invocations were made, and otherwise an unknown-step error for an unregistered target |
| Runners.ExecOkIsDone | src/runner.rs:43 | a successful run ended with `Done` and returns the state that invocation produced |
| Runners.FailStopsAtOnce | src/runner.rs:44 | a first step answering `Fail(msg)` ends the run after one invocation with an error displayed exactly as `msg` |
| Runners.RetryStreak | src/runner.rs:45-82 | an invocation's retry counter is the number of consecutive `Retry`/`Wait` outcomes at the same step right before it, never above the budget |
| Runners.AlwaysRetryExhausts | src/runner.rs:62-71 | a start agent that always retries is invoked `max_retries + 1` times and fails with the retry error and its reason; when `max_steps <= max_retries` it is invoked `max_steps` times and fails with the step budget error |
| Runners.RetryLoop | src/runner.rs:62-71 | the same from any retry count: the remaining invocations and the error |
| RunnerFixtures.Name | src/runner.rs:108-110 | specification function, no contract: the names "retry_agent", "always_retry" and "wait_once", as `name` returns them (also lines 123-125 and 135-137) |
| RunnerFixtures.Run | src/runner.rs:102-146 | specification function, no contract: `RetryAgent` counts its attempts and retries with "not ready" until the threshold, `AlwaysRetry` retries with "never ready", and `WaitOnce` waits once and then finishes |
| RunnerFixtures.SingleBuilds | src/runner.rs:150-156 | registering one test agent alone builds the workflow "test" starting at it |
| RunnerFixtures.AlwaysRetryFails | src/runner.rs:121-129 | `AlwaysRetry` runs `max_retries + 1` times and fails with "step 'always_retry' exceeded max retries (N): never ready" |
| RunnerFixtures.AlwaysRetryMessage | src/runner.rs:164-175 | with retry budget 2 the error text contains "exceeded max retries" |
| RunnerFixtures.RetryAgentStep | src/runner.rs:111-117 | an invocation of `RetryAgent` before its threshold, with a retry left, bumps its attempt count and retries it with the retry counter one higher |
| RunnerFixtures.RetryAgentLastStep | src/runner.rs:111-117 | the invocation at the threshold ends the run with the state, and one below it with no retry left ends it with the retry error and "not ready"; either way after one more event |
| RunnerFixtures.RetryAgentLoop | src/runner.rs:102-119 | `RetryAgent` from any attempt count finishes after its remaining attempts if they fit in the retry budget, else fails with "not ready"; a too small step budget ends it first |
| RunnerFixtures.RetryAgentOutcome | src/runner.rs:102-119 | a fresh `RetryAgent` succeeding on attempt k succeeds after k invocations when k - 1 retries fit, and fails after `max_retries + 1` invocations otherwise |
| RunnerFixtures.RetrySucceedsWithinLimit | src/runner.rs:148-162 | success on the third attempt under the default budgets |
| RunnerFixtures.WaitOnceOutcome | src/runner.rs:131-146 | `WaitOnce` succeeds after two invocations with a retry budget of at least one, and fails with the waiting error at once with budget zero |
| SimpleDemo.Name | examples/agent_workflow_simple.rs:8-22 | specification function, no contract: the names "add_one" and "stop" |
| SimpleDemo.DemoAgents | examples/agent_workflow_simple.rs:34-36 | specification function, no contract: both agents registered under their names |
| SimpleDemo.DemoWorkflow | examples/agent_workflow_simple.rs:34-40 | specification function, no contract: the workflow "demo" starting at `add_one` with the edge `add_one -> stop` |
| SimpleDemo.Run | examples/agent_workflow_simple.rs:8-30 | both agents are stateless and never return an error |
| SimpleDemo.DemoReplay | examples/agent_workflow_simple.rs:34-39 | the builder chain of `main` is the four calls applied in order |
| SimpleDemo.DemoBuilds | examples/agent_workflow_simple.rs:34-40 | that chain builds the valid workflow starting at `add_one` with the one edge `add_one -> stop` |
| SimpleDemo.AddOneStep | examples/agent_workflow_simple.rs:8-16 | an invocation of `add_one` increments the counter and the loop goes on at `stop` along the default edge |
| SimpleDemo.StopStep | examples/agent_workflow_simple.rs:18-30 | an invocation of `stop` finishes the run with the state when the counter is at least 3, and otherwise jumps back to `add_one` |
| SimpleDemo.DemoLoop | examples/agent_workflow_simple.rs:8-30 | from counter n at `add_one`, the loop finishes with counter max(n + 1, 3) after exactly `Need(n)` invocations, or runs out of budget after using all of it |
| SimpleDemo.DemoLoopShape | examples/agent_workflow_simple.rs:8-30 | such a run leaves both agents as they were, only appends to the trace, and makes every invocation with retry counter 0 |
| SimpleDemo.DemoFromZero | examples/agent_workflow_simple.rs:42 | from 0 with the default budgets the run returns n = 3 after 6 invocations |
| SimpleDemo.Demo | examples/agent_workflow_simple.rs:32-44 | building with the builder object and running with the runner object returns n = 3 |
| SimpleDemo.QuickStartRun | src/lib.rs:16-22 | specification function, no contract: the quick-start agent adds one and finishes |
| SimpleDemo.QuickStartYieldsOne | src/lib.rs:16-31 | the quick-start workflow builds and its run from 0 returns n = 1 |
| Context.FromStr | src/ctx.rs:39-45 | the lower-cased name "openai" gives OpenAI, "anthropic" gives Anthropic, and every other name gives Ollama, each in both directions |
| Context.Lower | src/ctx.rs:40 | lower-casing keeps the length and lower-cases each ASCII letter |
| Context.LowerIdempotent | src/ctx.rs:40 | lower-casing twice is lower-casing once |
| Context.LowerOfUpper | src/ctx.rs:40 | upper-casing a lower-case name and lower-casing it again gives the name back |
| Context.FromStrCaseInsensitive | src/ctx.rs:39-45 | names equal up to case select the same provider |
| Context.FromStrIgnoresCase | src/ctx.rs:39-45 | lower- or upper-casing a name first does not change the provider |
| Context.FromStrCanonical | src/ctx.rs:271-291 | each provider's own name, in lower or in upper case, parses back to it |
| Context.FromStrMixedCase | src/ctx.rs:286-291 | "OpenAI" gives OpenAI and "Ollama" gives Ollama |
| Context.FromStrUnknown | src/ctx.rs:293-296 | "something" and the empty name give Ollama |
| Context.TrimEndSlashes | src/ctx.rs:49 | the result is a prefix of the input that does not end in '/', and everything removed is '/' |
| Context.Suffix | src/ctx.rs:50-54 | specification function, no contract: each provider's path |
| Context.Endpoint | src/ctx.rs:48-55 | the endpoint is the base URL without trailing slashes followed by the provider's path |
| Context.TrimEndSlashesOfSlashes | src/ctx.rs:49 | appending slashes to a base does not change its trimmed form |
| Context.EndpointIgnoresTrailingSlashes | src/ctx.rs:48-55 | any number of trailing slashes gives the same endpoint |
| Context.EndpointOfCleanBase | src/ctx.rs:48-55 | a base not ending in '/' is used as it is |
| Context.EndpointDeterminesProvider | src/ctx.rs:50-54 | over the same base, different providers have different endpoints |
| Context.EndpointExamples | src/ctx.rs:300-330 | the four endpoints of the tests: Ollama, OpenAI and Anthropic over a clean base, and OpenAI over a base with a trailing slash |
| Context.Get | src/ctx.rs:60-62 | an object holding the key gives that field's value; anything else gives null |
| Context.At | src/ctx.rs:61-62 | an array with an element at the index gives that element; anything else gives null |
| Context.AsStr | src/ctx.rs:60-64 | a value is a string exactly when `as_str` gives one, and it gives that string |
| Context.ContentPath | src/ctx.rs:59-63 | specification function, no contract: the index chain of each provider's reply |
| Context.Follow | src/ctx.rs:59-63 | specification function, no contract: indexing a JSON value by each field name or array index in turn |
| Context.FollowContentPath | src/ctx.rs:59-63 | each provider's index chain is its content path followed step by step |
| Context.ParseResponse | src/ctx.rs:58-67 | the result is `Ok` exactly when the provider's content path holds a string, and then is that string; otherwise it is `Other("llm response missing message content")` |
| Context.ParseReply | src/ctx.rs:334-365 | each provider reads back the text of its own reply shape |
| Context.ParseForeignReply | src/ctx.rs:58-67 | a reply shaped for one provider is an error for each other provider |
| Context.ParseUnexpectedShape | src/ctx.rs:367-373 | `{"unexpected": "shape"}` is an error for every provider |
| Context.Ctx.constructor | src/ctx.rs:200-210 | a new context has an empty store and an empty log |
| Context.Ctx.Set | src/ctx.rs:213-216 | the key now maps to the value, every other key reads as before, and the log is unchanged |
| Context.Ctx.Get | src/ctx.rs:218-221 | a value is found exactly for stored keys, and it is the stored one |
| Context.Ctx.Remove | src/ctx.rs:223-226 | it returns the previous value if any, the key is gone, other keys and the log are unchanged |
| Context.Ctx.Log | src/ctx.rs:228-231 | the message is appended at the end of the log; the store is unchanged |
| Context.Ctx.Logs | src/ctx.rs:233-236 | the messages in the order they were logged |
| Context.Ctx.ClearLogs | src/ctx.rs:238-241 | the log is empty and the store unchanged |
| Context.Ctx.Clear | src/ctx.rs:243-247 | the store and the log are both empty |
| Context.StoreScenario | src/ctx.rs:377-410 | set then get, overwrite, missing key, remove returning the value, and remove of a missing key |
| Context.LogScenario | src/ctx.rs:414-441 | three messages come back in order; `clear_logs` keeps the store; `clear` empties both |
| Parse.TrimStart | src/tools/parse.rs:2 | only leading whitespace is removed, and the result does not start with whitespace |
| Parse.TrimEnd | src/tools/parse.rs:2 | only trailing whitespace is removed, and the result does not end with whitespace |
| Parse.Trim | src/tools/parse.rs:2 | the result is a slice `s[i..j]` of the input with only whitespace before i and from j on, and neither end of the result is whitespace |
| Parse.TrimEmpty | src/tools/parse.rs:2 | a text trims to the empty text only when it is all whitespace |
| Parse.TrimOfTrimmed | src/tools/parse.rs:2 | a text whose ends are not whitespace is its own trim |
| Parse.TrimIdempotent | src/tools/parse.rs:2 | trimming twice is trimming once |
| Parse.TrimExample | src/tools/parse.rs:2 | " x  " trims to "x" |
| Parse.PaddedTrim | src/tools/parse.rs:2 | any whitespace before and any, independently chosen, whitespace after a block with non-blank ends is exactly what trimming removes |
| Parse.IndexOfNewline | src/tools/parse.rs:4 | the first newline's position, or none exactly when there is no newline |
| Parse.Lines | src/tools/parse.rs:4 | a non-empty text has at least one line, a non-empty text without a newline is its one line, and no line holds a newline |
| Parse.OneLineIffNoNewline | src/tools/parse.rs:4-6 | a non-empty text not ending in a newline has one line exactly when it has no newline |
| Parse.LinesAfterLine | src/tools/parse.rs:4 | a line before a newline is the first line, less a final carriage return, and the rest follows |
| Parse.DropCarriageReturns | src/tools/parse.rs:4 | each line less its final carriage return, in order |
| Parse.PlainLinesKept | src/tools/parse.rs:4 | lines without a final carriage return are kept as they are |
| Parse.LinesOfTerminated | src/tools/parse.rs:4 | newline-terminated lines followed by a non-empty tail split into those lines, each less a final carriage return, then the tail's lines |
| Parse.LinesOfFencedBlock | src/tools/parse.rs:4 | a fenced block splits into its opening line, its body lines (each less a final carriage return) and its last line |
| Parse.JoinLines | src/tools/parse.rs:6 | zero lines join to the empty text, one line to itself |
| Parse.JoinCons | src/tools/parse.rs:6 | a line followed by further lines joins to that line, a newline and the rest joined |
| Parse.JoinOfLines | src/tools/parse.rs:4-6 | a text without carriage returns and not ending in a newline is the join of its lines |
| Parse.LinesOfJoin | src/tools/parse.rs:4-6 | lines without newlines or trailing carriage returns, the last non-empty, are the lines of their join |
| Parse.StripCodeFences | src/tools/parse.rs:1-10 | the source panics exactly when the trimmed reply starts with a fence and holds no newline |
| Parse.StripTrimmed | src/tools/parse.rs:3-9 | the same, for a text already trimmed |
| Parse.StripUnfencedIdempotent | src/tools/parse.rs:7-9 | a reply without a fence comes back trimmed, and stripping it again changes nothing |
| Parse.StripLoneFencePanics | src/tools/parse.rs:4-6 | "```" alone panics |
| Parse.StripOpeningFencePanics | src/tools/parse.rs:4-6 | an opening fence followed by any one-line info string that does not end in whitespace, with any whitespace before it and any whitespace after it, panics |
| Parse.StripFencedBlock | src/tools/parse.rs:1-10 | a fenced block with any info string, any body lines and any last line that does not end in whitespace, with any whitespace before and any after, strips to its body lines (each less a final carriage return) joined with newlines; the last line is dropped whatever it is |
| Parse.TrimFencedBlock | src/tools/parse.rs:2 | trimming such a padded block gives the block itself |
| Parse.StripBlock | src/tools/parse.rs:3-6 | the same as `StripFencedBlock`, for the block without padding |
| Parse.StripOfLines | src/tools/parse.rs:3-6 | a trimmed text starting with a fence whose lines are a first line, middle lines and a last line strips to the middle lines joined |
| Parse.StripClosedBlock | src/tools/parse.rs:1-10 | a padded block closed by "```" whose body lines are plain strips to exactly its body lines joined with newlines |
| Parse.StripDropsUnclosedLine | src/tools/parse.rs:5-6 | "```\ncode", whose last line is not a closing fence, strips to the empty text |

## Left out

- Agents as trait objects: the model does not use traits. Agents are
  values of a type parameter, with their name and step passed as
  functions, which keeps the run a pure function of its inputs.
- The `Ctx` argument of `Agent::run`: steps in the model do not receive the
  context. None of the modelled agents uses it.
- `std::thread::sleep` in the `Wait` branch (src/runner.rs:80): the
  duration is carried but has no timing meaning.
- `LlmRequestBuilder` with `system`, `user` and `send` (src/ctx.rs:70-165),
  and `Ctx::llm`: these build HTTP requests and do network I/O.
- `Ctx::new` reading environment variables (src/ctx.rs:170-211): the
  context is created with an empty store and log and a given provider.
  The model, base URL, context size and API key are not kept.
- The debug `eprintln!` output of src/ctx.rs.
- Hooks and tracing: runner.rs as given has no observer hooks. src/lib.rs
  re-exports `ErrorEvent` and `StepEvent`, which runner.rs does not define,
  so they are not part of this model.
- src/tools/http.rs, command.rs, file.rs and the rest of mod.rs: filesystem,
  process and HTTP helpers, which are I/O.
- The other examples (agent_loop, assistant, coder, newsletter, parallel,
  hello_world): they drive LLM calls and files. hello_world is written
  against an older API.
- Context.Lower: models `str::to_lowercase` on ASCII letters only. For the
  two names compared against ("openai", "anthropic") only ASCII letters
  can lower-case to their characters, except that U+212A KELVIN SIGN
  lower-cases to 'k', which neither name contains.
- JSON values: numbers and booleans are one `JScalar` case, since
  only strings, arrays and objects matter to `parse_response`. JSON text is
  not parsed; serde's parse errors belong to `send`, which is left out.
- Workflows.WorkflowBuilder.Build: does not fix which unregistered edge
  target is reported when there are several, because the source iterates
  a `HashMap` in unspecified order.
- Runners.Runner.Run: `max_steps` and `max_retries` are unbounded naturals,
  not `usize`. The retry counter cannot overflow because it never exceeds
  `max_retries + 1`.
- SimpleDemo.Run: the counter is an unbounded integer, not `i32`. The demo
  counts from 0 to 3, so no overflow is reachable.
- RunnerFixtures.RetryAgentLoop: `attempts` is an unbounded natural, not
  `u32`. It grows by at most `max_retries + 1` from 0.
- Parse.StripCodeFences: the panic is modelled as `None`, not as an abort.
  Every other input gives `Some` of what the source returns. Its own
  contract states only when it panics; the value it returns is stated by
  `Parse.StripUnfencedIdempotent`, `Parse.StripFencedBlock` and
  `Parse.StripClosedBlock`.
- Parse.StripTrimmed: its contract states only when it panics; its value is
  stated by `Parse.StripBlock` and `Parse.StripOfLines`.
- Parse.Lines: its contract gives the shape of the result; its value is
  stated by `Parse.LinesAfterLine`, `Parse.LinesOfTerminated` and the
  round trips `Parse.JoinOfLines` and `Parse.LinesOfJoin`.
- Parse.JoinLines: its contract covers zero and one line; longer joins are
  stated by `Parse.JoinCons` and the round trips with `Parse.Lines`.
