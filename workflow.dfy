/**
 * Workflow definition and validation (src/workflow.rs).
 *
 * A builder accumulates agent registrations keyed by the agent's own name,
 * a provisional start step, a "chain tail" used by `then`, a default-edge
 * map and a duplicate-name flag; `Build` checks the four invariants in a
 * fixed order and yields either a validated `Workflow` or an error.
 *
 * Agents are values of a type parameter `A`; the name each agent reports
 * for itself is the function `agentName`. The builder's updates are
 * specified by the pure transition `Apply` on `BuilderState`, which the
 * lemmas below replay over whole call sequences.
 */
module Workflows {
  import opened Wrappers

  datatype WorkflowError =
    | DuplicateAgent(name: string)
    | UnknownStep(name: string)
    | MissingStart

  /** `impl Display for WorkflowError`. */
  function DisplayError(e: WorkflowError): (r: string)
    ensures e.DuplicateAgent? ==> r == "duplicate agent name: " + e.name
    ensures e.UnknownStep? ==> r == "unknown step: " + e.name
    ensures e.MissingStart? ==> r == "workflow missing start step"
  {
    match e
    case DuplicateAgent(n) => "duplicate agent name: " + n
    case UnknownStep(n) => "unknown step: " + n
    case MissingStart => "workflow missing start step"
  }

  /** A validated workflow: its name, start step, agents by name and default edges. */
  datatype Workflow<A> = Workflow(
    name: string,
    start: string,
    agents: map<string, A>,
    defaultNext: map<string, string>)

  /** The two invariants a built workflow satisfies: start and every edge target are registered. */
  ghost predicate Valid<A>(wf: Workflow<A>)
  {
    && wf.start in wf.agents
    && forall from :: from in wf.defaultNext ==> wf.defaultNext[from] in wf.agents
  }

  /** `Workflow::default_next`: the configured successor of `from`, if any. */
  function DefaultNext<A>(wf: Workflow<A>, from: string): (r: Option<string>)
    ensures r.Some? <==> from in wf.defaultNext
    ensures r.Some? ==> r.value == wf.defaultNext[from]
  {
    if from in wf.defaultNext then Some(wf.defaultNext[from]) else None
  }

  /** `Workflow::agent_mut`: the agent registered under `name`, if any. */
  function AgentFor<A>(wf: Workflow<A>, name: string): (r: Option<A>)
    ensures r.Some? <==> name in wf.agents
    ensures r.Some? ==> r.value == wf.agents[name]
  {
    if name in wf.agents then Some(wf.agents[name]) else None
  }

  // ---------------------------------------------------------------------
  // Builder state and its transitions
  // ---------------------------------------------------------------------

  datatype BuilderState<A> = BuilderState(
    name: string,
    start: Option<string>,
    chainLast: Option<string>,
    agents: map<string, A>,
    defaultNext: map<string, string>,
    duplicate: Option<string>)

  /** `Workflow::builder(name)`: nothing registered, no start, no tail, no edges. */
  function Fresh<A>(name: string): BuilderState<A>
  {
    BuilderState(name, None, None, map[], map[], None)
  }

  /** One builder call. */
  datatype Call<A> = RegisterCall(agent: A) | StartAtCall(step: string) | ThenCall(next: string)

  /** The effect of one builder call on the builder's state. */
  function Apply<A>(agentName: A -> string, b: BuilderState<A>, c: Call<A>): BuilderState<A>
  {
    match c
    case RegisterCall(agent) =>
      var n := agentName(agent);
      b.(agents := b.agents[n := agent],
         duplicate := if n in b.agents then Some(n) else b.duplicate,
         start := if b.start.None? then Some(n) else b.start,
         chainLast := if b.chainLast.None? then Some(n) else b.chainLast)
    case StartAtCall(step) =>
      b.(start := Some(step), chainLast := Some(step))
    case ThenCall(next) =>
      if b.chainLast.None? then
        b.(start := Some(next), chainLast := Some(next))
      else
        b.(defaultNext := b.defaultNext[b.chainLast.value := next], chainLast := Some(next))
  }

  /** The state after a sequence of builder calls, applied left to right. */
  function Replay<A>(agentName: A -> string, b: BuilderState<A>, calls: seq<Call<A>>): BuilderState<A>
    decreases |calls|
  {
    if calls == [] then b
    else Apply(agentName, Replay(agentName, b, calls[..|calls| - 1]), calls[|calls| - 1])
  }

  /**
   * What `build` may return from a builder state: the duplicate check
   * first, then the missing start, then an unregistered start, then some
   * unregistered edge target (which one is not fixed), and otherwise the
   * workflow made of the builder's own name, start, agents and edges.
   */
  ghost predicate BuildOutcome<A>(b: BuilderState<A>, r: Result<Workflow<A>, WorkflowError>)
  {
    if b.duplicate.Some? then r == Err(DuplicateAgent(b.duplicate.value))
    else if b.start.None? then r == Err(MissingStart)
    else if b.start.value !in b.agents then r == Err(UnknownStep(b.start.value))
    else if exists t :: t in b.defaultNext.Values && t !in b.agents then
      r.Err? && r.error.UnknownStep? && r.error.name in b.defaultNext.Values && r.error.name !in b.agents
    else r == Ok(Workflow(b.name, b.start.value, b.agents, b.defaultNext))
  }

  // ---------------------------------------------------------------------
  // The builder object
  // ---------------------------------------------------------------------

  class WorkflowBuilder<A> {
    const agentName: A -> string
    var name: string
    var start: Option<string>
    var chainLast: Option<string>
    var agents: map<string, A>
    var defaultNext: map<string, string>
    var duplicate: Option<string>

    function State(): BuilderState<A>
      reads this
    {
      BuilderState(name, start, chainLast, agents, defaultNext, duplicate)
    }

    /** `Workflow::builder(name)`. */
    constructor (name: string, agentName: A -> string)
      ensures State() == Fresh(name) && this.agentName == agentName
    {
      this.agentName := agentName;
      this.name := name;
      start := None;
      chainLast := None;
      agents := map[];
      defaultNext := map[];
      duplicate := None;
    }

    /** `register(agent)`: insert under the agent's own name; flag a name seen before. */
    method Register(agent: A)
      modifies this
      ensures State() == Apply(agentName, old(State()), RegisterCall(agent))
    {
      var n := agentName(agent);
      if n in agents {
        duplicate := Some(n);
      }
      agents := agents[n := agent];
      if start.None? {
        start := Some(n);
      }
      if chainLast.None? {
        chainLast := Some(n);
      }
    }

    /** `start_at(step)`: set both the start and the chain tail. */
    method StartAt(step: string)
      modifies this
      ensures State() == Apply(agentName, old(State()), StartAtCall(step))
    {
      start := Some(step);
      chainLast := Some(step);
    }

    /** `then(next)`: an edge from the chain tail to `next`, or `next` becomes the start. */
    method Then(next: string)
      modifies this
      ensures State() == Apply(agentName, old(State()), ThenCall(next))
    {
      if chainLast.None? {
        start := Some(next);
        chainLast := Some(next);
        return;
      }
      defaultNext := defaultNext[chainLast.value := next];
      chainLast := Some(next);
    }

    /** `build()`: validate in the fixed order, looping over the edge targets last. */
    method Build() returns (r: Result<Workflow<A>, WorkflowError>)
      ensures BuildOutcome(State(), r)
    {
      if duplicate.Some? {
        return Err(DuplicateAgent(duplicate.value));
      }
      if start.None? {
        return Err(MissingStart);
      }
      var s := start.value;
      if s !in agents {
        return Err(UnknownStep(s));
      }
      var targets := defaultNext.Values;
      while targets != {}
        invariant targets <= defaultNext.Values
        invariant forall t :: t in defaultNext.Values && t !in targets ==> t in agents
        decreases targets
      {
        var t :| t in targets;
        if t !in agents {
          return Err(UnknownStep(t));
        }
        targets := targets - {t};
      }
      return Ok(Workflow(name, s, agents, defaultNext));
    }
  }

  // ---------------------------------------------------------------------
  // Properties of builder call sequences
  // ---------------------------------------------------------------------

  /** The names of the registered agents, in call order. */
  function Registered<A>(agentName: A -> string, calls: seq<Call<A>>): (names: seq<string>)
    decreases |calls|
  {
    if calls == [] then []
    else
      var prior := Registered(agentName, calls[..|calls| - 1]);
      match calls[|calls| - 1]
      case RegisterCall(agent) => prior + [agentName(agent)]
      case _ => prior
  }

  ghost predicate HasRepeat(names: seq<string>)
  {
    exists i, j :: 0 <= i < j < |names| && names[i] == names[j]
  }

  ghost predicate RegisteredTwice(names: seq<string>, n: string)
  {
    exists i, j :: 0 <= i < j < |names| && names[i] == n && names[j] == n
  }

  /**
   * What any call sequence leaves in a fresh builder: the name is kept,
   * the agents are exactly the registered names, a start and a chain tail
   * exist exactly when some call was made, and the duplicate flag is set
   * exactly when a name was registered twice, naming such a name.
   */
  lemma {:induction false} ReplayShape<A>(agentName: A -> string, name: string, calls: seq<Call<A>>)
    ensures var b := Replay(agentName, Fresh(name), calls);
      var names := Registered(agentName, calls);
      && b.name == name
      && (forall n :: n in b.agents <==> n in names)
      && (b.start.Some? <==> calls != [])
      && (b.chainLast.Some? <==> calls != [])
      && (b.duplicate.Some? <==> HasRepeat(names))
      && (b.duplicate.Some? ==> RegisteredTwice(names, b.duplicate.value))
    decreases |calls|
  {
    if calls != [] {
      var prefix := calls[..|calls| - 1];
      ReplayShape(agentName, name, prefix);
      var p := Replay(agentName, Fresh(name), prefix);
      var prior := Registered(agentName, prefix);
      var names := Registered(agentName, calls);
      var b := Replay(agentName, Fresh(name), calls);
      match calls[|calls| - 1]
      case RegisterCall(agent) =>
        var n := agentName(agent);
        assert names == prior + [n];
        if n in p.agents {
          var i :| 0 <= i < |prior| && prior[i] == n;
          assert names[i] == n && names[|prior|] == n;
        } else {
          if HasRepeat(names) {
            var i, j :| 0 <= i < j < |names| && names[i] == names[j];
            assert names[i] == prior[i] && prior[i] in prior;
            assert j < |prior|;
            assert prior[i] == prior[j];
          }
          if p.duplicate.Some? {
            var i, j :| 0 <= i < j < |prior| && prior[i] == p.duplicate.value && prior[j] == p.duplicate.value;
            assert names[i] == prior[i] && names[j] == prior[j];
          }
        }
      case StartAtCall(_) =>
        assert names == prior;
      case ThenCall(_) =>
        assert names == prior;
    }
  }

  /** A builder no method was called on fails with `MissingStart`, and only such a builder does. */
  lemma MissingStartIffNoCalls<A>(agentName: A -> string, name: string, calls: seq<Call<A>>,
                                  r: Result<Workflow<A>, WorkflowError>)
    requires BuildOutcome(Replay(agentName, Fresh(name), calls), r)
    ensures r == Err(MissingStart) <==> calls == []
  {
    ReplayShape(agentName, name, calls);
  }

  /**
   * Registering some name twice makes `build` report `DuplicateAgent` for a
   * twice-registered name, whatever the start and the edges are.
   */
  lemma DuplicateWins<A>(agentName: A -> string, name: string, calls: seq<Call<A>>,
                         r: Result<Workflow<A>, WorkflowError>)
    requires HasRepeat(Registered(agentName, calls))
    requires BuildOutcome(Replay(agentName, Fresh(name), calls), r)
    ensures r.Err? && r.error.DuplicateAgent?
    ensures RegisteredTwice(Registered(agentName, calls), r.error.name)
  {
    ReplayShape(agentName, name, calls);
  }

  /**
   * With only registrations, the first registered name is the start, later
   * registrations leave it alone, and without a repeated name the build
   * succeeds with that start and no edges.
   */
  lemma {:induction false} OnlyRegisterStartsAtFirst<A>(agentName: A -> string, name: string, calls: seq<Call<A>>)
    requires calls != []
    requires forall i :: 0 <= i < |calls| ==> calls[i].RegisterCall?
    ensures Replay(agentName, Fresh(name), calls).start == Some(agentName(calls[0].agent))
    ensures Replay(agentName, Fresh(name), calls).defaultNext == map[]
    decreases |calls|
  {
    if |calls| > 1 {
      var prefix := calls[..|calls| - 1];
      assert prefix[0] == calls[0];
      OnlyRegisterStartsAtFirst(agentName, name, prefix);
    } else {
      assert calls[..0] == [];
    }
  }

  lemma OnlyRegisterBuilds<A>(agentName: A -> string, name: string, calls: seq<Call<A>>,
                              r: Result<Workflow<A>, WorkflowError>)
    requires calls != []
    requires forall i :: 0 <= i < |calls| ==> calls[i].RegisterCall?
    requires !HasRepeat(Registered(agentName, calls))
    requires BuildOutcome(Replay(agentName, Fresh(name), calls), r)
    ensures r.Ok? && r.value.start == agentName(calls[0].agent) && r.value.defaultNext == map[]
  {
    OnlyRegisterStartsAtFirst(agentName, name, calls);
    ReplayShape(agentName, name, calls);
    var names := Registered(agentName, calls);
    assert |calls| > 0;
    RegisteredFirst(agentName, calls);
  }

  /** With only registrations, the first registered name is the first of `Registered`. */
  lemma {:induction false} RegisteredFirst<A>(agentName: A -> string, calls: seq<Call<A>>)
    requires calls != [] && calls[0].RegisterCall?
    ensures |Registered(agentName, calls)| > 0
    ensures Registered(agentName, calls)[0] == agentName(calls[0].agent)
    decreases |calls|
  {
    if |calls| > 1 {
      var prefix := calls[..|calls| - 1];
      assert prefix[0] == calls[0];
      RegisteredFirst(agentName, prefix);
    } else {
      assert calls[..0] == [];
    }
  }

  /**
   * `build` succeeds exactly when there is no duplicate, a start exists and
   * is registered, and every edge target is registered; the workflow it
   * returns is valid and carries the builder's name, start, agents and edges.
   */
  lemma BuildOkIffValid<A>(b: BuilderState<A>, r: Result<Workflow<A>, WorkflowError>)
    requires BuildOutcome(b, r)
    ensures r.Ok? <==> (b.duplicate.None? && b.start.Some? && b.start.value in b.agents &&
                        forall t :: t in b.defaultNext.Values ==> t in b.agents)
    ensures r.Ok? ==> Valid(r.value) && r.value == Workflow(b.name, b.start.value, b.agents, b.defaultNext)
  {
    if r.Ok? {
      forall from | from in b.defaultNext
        ensures b.defaultNext[from] in b.agents
      {
        assert b.defaultNext[from] in b.defaultNext.Values;
      }
    }
  }

  /** The calls `start_at(x).then(y1)...then(yn)`. */
  function ChainCalls<A>(x: string, ys: seq<string>): (calls: seq<Call<A>>)
    ensures |calls| == |ys| + 1
    decreases |ys|
  {
    if ys == [] then [StartAtCall(x)]
    else ChainCalls(x, ys[..|ys| - 1]) + [ThenCall(ys[|ys| - 1])]
  }

  /** No name occurs twice: the last one is not among the earlier ones, which are distinct themselves. */
  predicate Distinct(names: seq<string>)
    decreases |names|
  {
    names == [] || (names[|names| - 1] !in names[..|names| - 1] && Distinct(names[..|names| - 1]))
  }

  /** Replaying a chain makes `x` the start and the last name the tail, and registers nothing. */
  lemma {:induction false} ChainEndsAtLast<A>(agentName: A -> string, b: BuilderState<A>, x: string, ys: seq<string>)
    ensures var r := Replay(agentName, b, ChainCalls(x, ys));
      && r.start == Some(x)
      && r.chainLast == Some(([x] + ys)[|ys|])
      && r.agents == b.agents && r.duplicate == b.duplicate && r.name == b.name
    decreases |ys|
  {
    var calls := ChainCalls<A>(x, ys);
    if ys == [] {
      assert calls[..0] == [];
    } else {
      assert calls[..|calls| - 1] == ChainCalls(x, ys[..|ys| - 1]);
      ChainEndsAtLast(agentName, b, x, ys[..|ys| - 1]);
    }
  }

  /** The names a chain's edges start from: every name of the chain but the last. */
  function Sources(x: string, ys: seq<string>): (srcs: seq<string>)
    ensures |srcs| == |ys|
  {
    ([x] + ys)[..|ys|]
  }

  /**
   * `after` holds the edges `srcs[k] -> ys[k]` of a path, and agrees with
   * `before` on every name that is not one of its sources.
   */
  ghost predicate PathOf(before: map<string, string>, after: map<string, string>, srcs: seq<string>, ys: seq<string>)
  {
    && |srcs| == |ys|
    && (forall k :: 0 <= k < |ys| ==> srcs[k] in after && after[srcs[k]] == ys[k])
    && (forall n :: n !in srcs ==> (n in after <==> n in before))
    && (forall n :: n in after && n !in srcs ==> after[n] == before[n])
  }

  /**
   * Replaying `start_at(x)` followed by `then(y1) ... then(yn)` from any
   * builder state, when no name is the source of two of its edges, adds the
   * edges x->y1, y1->y2, ... and keeps every edge out of a name that is not
   * a source of the chain.
   */
  lemma {:induction false} ChainBuildsPath<A>(agentName: A -> string, b: BuilderState<A>, x: string, ys: seq<string>)
    requires Distinct(Sources(x, ys))
    ensures PathOf(b.defaultNext, Replay(agentName, b, ChainCalls(x, ys)).defaultNext, Sources(x, ys), ys)
    decreases |ys|
  {
    if ys != [] {
      var ys' := ys[..|ys| - 1];
      var src := ([x] + ys)[|ys| - 1];
      var y := ys[|ys| - 1];
      var srcs' := Sources(x, ys');
      var edges' := Replay(agentName, b, ChainCalls<A>(x, ys')).defaultNext;
      assert PathOf(b.defaultNext, edges', srcs', ys') && src !in srcs' && Sources(x, ys) == srcs' + [src] by {
        ChainPrefix<A>(x, ys);
        ChainBuildsPath(agentName, b, x, ys');
      }
      assert Replay(agentName, b, ChainCalls(x, ys)).defaultNext == edges'[src := y] by {
        ChainLastEdge(agentName, b, x, ys);
      }
      SplitLast(ys);
      PathStep(b.defaultNext, edges', srcs', ys', src, y);
    } else {
      assert Sources(x, ys) == [];
    }
  }

  /** A non-empty sequence is its front followed by its last element. */
  lemma SplitLast<T>(s: seq<T>)
    requires s != []
    ensures s == s[..|s| - 1] + [s[|s| - 1]]
  {
  }

  /** The last `then` of a chain adds the edge from the previous tail to its target. */
  lemma ChainLastEdge<A>(agentName: A -> string, b: BuilderState<A>, x: string, ys: seq<string>)
    requires ys != []
    ensures Replay(agentName, b, ChainCalls(x, ys)).defaultNext
         == Replay(agentName, b, ChainCalls(x, ys[..|ys| - 1])).defaultNext[([x] + ys)[|ys| - 1] := ys[|ys| - 1]]
  {
    var ys' := ys[..|ys| - 1];
    ChainEndsAtLast(agentName, b, x, ys');
    assert ([x] + ys')[|ys'|] == ([x] + ys)[|ys| - 1];
    var calls := ChainCalls<A>(x, ys);
    assert calls[..|calls| - 1] == ChainCalls(x, ys');
  }

  /** One more edge `src -> y` out of a name that is not yet a source extends the path. */
  lemma PathStep(before: map<string, string>, edges: map<string, string>, srcs: seq<string>, ys: seq<string>,
                 src: string, y: string)
    requires PathOf(before, edges, srcs, ys) && src !in srcs
    ensures PathOf(before, edges[src := y], srcs + [src], ys + [y])
  {
    var after := edges[src := y];
    forall k | 0 <= k < |ys| + 1
      ensures (srcs + [src])[k] in after && after[(srcs + [src])[k]] == (ys + [y])[k]
    {
      if k < |ys| {
        assert (srcs + [src])[k] == srcs[k] != src;
      }
    }
  }

  /** Dropping the last `then` of a chain drops the last source, which the earlier ones do not repeat. */
  lemma ChainPrefix<A>(x: string, ys: seq<string>)
    requires ys != [] && Distinct(Sources(x, ys))
    ensures ChainCalls<A>(x, ys)[..|ys|] == ChainCalls<A>(x, ys[..|ys| - 1])
    ensures ChainCalls<A>(x, ys)[|ys|] == ThenCall(ys[|ys| - 1])
    ensures Distinct(Sources(x, ys[..|ys| - 1]))
    ensures Sources(x, ys) == Sources(x, ys[..|ys| - 1]) + [([x] + ys)[|ys| - 1]]
    ensures ([x] + ys)[|ys| - 1] !in Sources(x, ys[..|ys| - 1])
  {
    var srcs := Sources(x, ys);
    assert srcs[..|srcs| - 1] == Sources(x, ys[..|ys| - 1]);
  }

  /** The target of the last of the edges `srcs[k] -> ys[k]` that leaves `n`, if any leaves it. */
  function LastTarget(srcs: seq<string>, ys: seq<string>, n: string): (r: Option<string>)
    requires |srcs| == |ys|
    ensures r.Some? <==> n in srcs
    decreases |srcs|
  {
    if srcs == [] then None
    else if srcs[|srcs| - 1] == n then Some(ys[|ys| - 1])
    else LastTarget(srcs[..|srcs| - 1], ys[..|ys| - 1], n)
  }

  /** The last target found is the target of an edge from `n` that no later edge leaves `n` again. */
  lemma {:induction false} LastTargetIsLast(srcs: seq<string>, ys: seq<string>, n: string)
    requires |srcs| == |ys| && n in srcs
    ensures exists k :: 0 <= k < |srcs| && srcs[k] == n && ys[k] == LastTarget(srcs, ys, n).value && n !in srcs[k + 1..]
    decreases |srcs|
  {
    var m := |srcs| - 1;
    if srcs[m] == n {
      assert srcs[m + 1..] == [];
    } else {
      var srcs', ys' := srcs[..m], ys[..m];
      assert n in srcs' by {
        var i :| 0 <= i < |srcs| && srcs[i] == n;
        assert srcs'[i] == n;
      }
      LastTargetIsLast(srcs', ys', n);
      var k :| 0 <= k < m && srcs'[k] == n && ys'[k] == LastTarget(srcs', ys', n).value && n !in srcs'[k + 1..];
      assert srcs[k + 1..] == srcs'[k + 1..] + [srcs[m]];
    }
  }

  /**
   * `after` holds, for each source, the edge to the target of its last
   * occurrence, and agrees with `before` on every other name.
   */
  ghost predicate LastEdges(before: map<string, string>, after: map<string, string>, srcs: seq<string>, ys: seq<string>)
  {
    && |srcs| == |ys|
    && (forall n :: n in srcs ==> n in after && after[n] == LastTarget(srcs, ys, n).value)
    && (forall n :: n !in srcs ==> (n in after <==> n in before))
    && (forall n :: n in after && n !in srcs ==> after[n] == before[n])
  }

  /** One more edge `src -> y` replaces any earlier edge out of `src`. */
  lemma LastEdgesStep(before: map<string, string>, edges: map<string, string>, srcs: seq<string>, ys: seq<string>,
                      src: string, y: string)
    requires LastEdges(before, edges, srcs, ys)
    ensures LastEdges(before, edges[src := y], srcs + [src], ys + [y])
  {
    var srcs', ys' := srcs + [src], ys + [y];
    assert srcs'[..|srcs|] == srcs && ys'[..|ys|] == ys;
    forall n | n != src
      ensures LastTarget(srcs', ys', n) == LastTarget(srcs, ys, n)
    {
    }
  }

  /** Dropping the last `then` of a chain drops the last source. */
  lemma SourcesSnoc(x: string, ys: seq<string>)
    requires ys != []
    ensures Sources(x, ys) == Sources(x, ys[..|ys| - 1]) + [([x] + ys)[|ys| - 1]]
  {
    var srcs := Sources(x, ys);
    assert srcs[..|srcs| - 1] == Sources(x, ys[..|ys| - 1]);
  }

  /**
   * Replaying a chain that may revisit names: each source's edge goes to the
   * target of its last `then`, since a later `insert` replaces an earlier
   * edge, and every name that is not a source keeps its edge.
   */
  lemma {:induction false} ChainLastEdgeWins<A>(agentName: A -> string, b: BuilderState<A>, x: string, ys: seq<string>)
    ensures LastEdges(b.defaultNext, Replay(agentName, b, ChainCalls(x, ys)).defaultNext, Sources(x, ys), ys)
    decreases |ys|
  {
    if ys != [] {
      var ys' := ys[..|ys| - 1];
      var src := ([x] + ys)[|ys| - 1];
      var y := ys[|ys| - 1];
      var edges' := Replay(agentName, b, ChainCalls<A>(x, ys')).defaultNext;
      assert LastEdges(b.defaultNext, edges', Sources(x, ys'), ys') by {
        ChainLastEdgeWins(agentName, b, x, ys');
      }
      assert Replay(agentName, b, ChainCalls(x, ys)).defaultNext == edges'[src := y] by {
        ChainLastEdge(agentName, b, x, ys);
      }
      SourcesSnoc(x, ys);
      SplitLast(ys);
      LastEdgesStep(b.defaultNext, edges', Sources(x, ys'), ys', src, y);
    } else {
      var calls := ChainCalls<A>(x, ys);
      assert calls[..|calls| - 1] == [];
      assert Sources(x, ys) == [];
    }
  }

  /** `start_at(a).then(b).then(a).then(c)`: the edge out of `a` is the later one, to `c`. */
  lemma RevisitedChain<A>(agentName: A -> string, b: BuilderState<A>)
    requires b.defaultNext == map[]
    ensures Replay(agentName, b, ChainCalls("a", ["b", "a", "c"])).defaultNext == map["a" := "c", "b" := "a"]
  {
    var ys := ["b", "a", "c"];
    var after := Replay(agentName, b, ChainCalls("a", ys)).defaultNext;
    ChainLastEdgeWins(agentName, b, "a", ys);
    var srcs := Sources("a", ys);
    assert srcs == ["a", "b", "a"];
    assert LastTarget(srcs, ys, "a") == Some("c");
    assert LastTarget(srcs, ys, "b") == Some("a") by {
      assert srcs[..2] == ["a", "b"] && ys[..2] == ["b", "a"];
    }
    assert after.Keys == {"a", "b"};
  }

  /**
   * Edge sources are never checked: a chain that starts from an unregistered
   * name and is later re-anchored at a registered start still builds, with an
   * edge out of the unregistered name.
   */
  lemma EdgeSourceUnchecked<A>(agentName: A -> string, a: A, r: Result<Workflow<A>, WorkflowError>)
    requires agentName(a) == "a"
    requires BuildOutcome(
      Replay(agentName, Fresh("test"), [RegisterCall(a), StartAtCall("x"), ThenCall("a"), StartAtCall("a")]), r)
    ensures r.Ok? && "x" in r.value.defaultNext && "x" !in r.value.agents
  {
    var calls: seq<Call<A>> := [RegisterCall(a), StartAtCall("x"), ThenCall("a"), StartAtCall("a")];
    var b0 := Fresh<A>("test");
    var b1 := Apply(agentName, b0, RegisterCall(a));
    var b2 := Apply(agentName, b1, StartAtCall("x"));
    var b3 := Apply(agentName, b2, ThenCall("a"));
    var b := Apply(agentName, b3, StartAtCall("a"));
    assert calls[..1][..0] == [];
    assert Replay(agentName, b0, calls[..1]) == b1;
    assert calls[..2][..1] == calls[..1];
    assert Replay(agentName, b0, calls[..2]) == b2;
    assert calls[..3][..2] == calls[..2];
    assert Replay(agentName, b0, calls[..3]) == b3;
    assert calls[..3] == calls[..|calls| - 1];
    assert Replay(agentName, b0, calls) == b;
    assert b.agents == map["a" := a];
    assert b.defaultNext == map["x" := "a"];
    forall t | t in b.defaultNext.Values
      ensures t in b.agents
    {
      var k :| k in b.defaultNext && b.defaultNext[k] == t;
    }
  }
}
