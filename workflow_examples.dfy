/**
 * The workflow builder's own test scenarios (src/workflow.rs, its test
 * module), over an agent that is nothing but its name.
 */
module WorkflowExamples {
  import opened Wrappers
  import opened Workflows

  datatype FakeAgent = FakeAgent(id: string)

  function Name(a: FakeAgent): string
  {
    a.id
  }

  /** `register(a).register(b).start_at("a").then("b")` builds "test" starting at "a" with the edge a -> b. */
  lemma BuildValidWorkflow(r: Result<Workflow<FakeAgent>, WorkflowError>)
    requires BuildOutcome(Replay(Name, Fresh("test"),
      [RegisterCall(FakeAgent("a")), RegisterCall(FakeAgent("b")), StartAtCall("a"), ThenCall("b")]), r)
    ensures r.Ok? && r.value.name == "test" && r.value.start == "a"
    ensures DefaultNext(r.value, "a") == Some("b")
  {
    var calls: seq<Call<FakeAgent>> := [RegisterCall(FakeAgent("a")), RegisterCall(FakeAgent("b")), StartAtCall("a"), ThenCall("b")];
    var b0 := Fresh<FakeAgent>("test");
    var b1 := Apply(Name, b0, calls[0]);
    var b2 := Apply(Name, b1, calls[1]);
    var b3 := Apply(Name, b2, calls[2]);
    var b := Apply(Name, b3, calls[3]);
    assert calls[..1][..0] == [];
    assert Replay(Name, b0, calls[..1]) == b1;
    assert calls[..2][..1] == calls[..1];
    assert Replay(Name, b0, calls[..2]) == b2;
    assert calls[..3][..2] == calls[..2];
    assert Replay(Name, b0, calls[..3]) == b3;
    assert calls[..3] == calls[..|calls| - 1];
    assert Replay(Name, b0, calls) == b;
    assert b.agents == map["a" := FakeAgent("a"), "b" := FakeAgent("b")];
    assert b.defaultNext == map["a" := "b"];
    forall t | t in b.defaultNext.Values
      ensures t in b.agents
    {
      var k :| k in b.defaultNext && b.defaultNext[k] == t;
    }
    BuildOkIffValid(b, r);
  }

  /** An empty builder fails with `MissingStart`. */
  lemma MissingStartOnEmptyBuilder(r: Result<Workflow<FakeAgent>, WorkflowError>)
    requires BuildOutcome(Replay(Name, Fresh("test"), []), r)
    ensures r == Err(MissingStart)
  {
  }

  /** `start_at` a name nobody registered fails with that name. */
  lemma UnknownStartAtStep(r: Result<Workflow<FakeAgent>, WorkflowError>)
    requires BuildOutcome(Replay(Name, Fresh("test"), [RegisterCall(FakeAgent("a")), StartAtCall("missing")]), r)
    ensures r == Err(UnknownStep("missing"))
  {
    var calls: seq<Call<FakeAgent>> := [RegisterCall(FakeAgent("a")), StartAtCall("missing")];
    var b0 := Fresh<FakeAgent>("test");
    var b1 := Apply(Name, b0, calls[0]);
    assert calls[..1][..0] == [];
    assert Replay(Name, b0, calls[..1]) == b1;
    assert Replay(Name, b0, calls) == Apply(Name, b1, calls[1]);
  }

  /** `then` to a name nobody registered fails with that name, though the start is fine. */
  lemma UnknownThenTarget(r: Result<Workflow<FakeAgent>, WorkflowError>)
    requires BuildOutcome(Replay(Name, Fresh("test"),
      [RegisterCall(FakeAgent("a")), StartAtCall("a"), ThenCall("missing")]), r)
    ensures r == Err(UnknownStep("missing"))
  {
    var calls: seq<Call<FakeAgent>> := [RegisterCall(FakeAgent("a")), StartAtCall("a"), ThenCall("missing")];
    var b0 := Fresh<FakeAgent>("test");
    var b1 := Apply(Name, b0, calls[0]);
    var b2 := Apply(Name, b1, calls[1]);
    var b := Apply(Name, b2, calls[2]);
    assert calls[..1][..0] == [];
    assert Replay(Name, b0, calls[..1]) == b1;
    assert calls[..2][..1] == calls[..1];
    assert Replay(Name, b0, calls[..2]) == b2;
    assert Replay(Name, b0, calls) == b;
    assert b.defaultNext == map["a" := "missing"];
    assert b.defaultNext.Values == {"missing"};
    assert "missing" !in b.agents;
  }

  /** Registering the same name twice fails with that name. */
  lemma DuplicateAgentRejected(r: Result<Workflow<FakeAgent>, WorkflowError>)
    requires BuildOutcome(Replay(Name, Fresh("test"), [RegisterCall(FakeAgent("a")), RegisterCall(FakeAgent("a"))]), r)
    ensures r == Err(DuplicateAgent("a"))
  {
    var calls: seq<Call<FakeAgent>> := [RegisterCall(FakeAgent("a")), RegisterCall(FakeAgent("a"))];
    var b0 := Fresh<FakeAgent>("test");
    var b1 := Apply(Name, b0, calls[0]);
    assert calls[..1][..0] == [];
    assert Replay(Name, b0, calls[..1]) == b1;
    assert Replay(Name, b0, calls) == Apply(Name, b1, calls[1]);
  }
}
