/**
 * The control-flow and error vocabulary shared by agents and the runner
 * (src/agent.rs): the six outcomes a step can return, the retry hint, the
 * four error kinds with their constructors, conversions and display text.
 */
module Agents {
  import opened Wrappers

  /** Why an agent asked to be re-run. */
  datatype RetryHint = RetryHint(reason: string)

  /** `RetryHint::new(reason)`: the hint carries the reason unchanged. */
  function NewRetryHint(reason: string): (h: RetryHint)
    ensures h.reason == reason
  {
    RetryHint(reason)
  }

  /**
   * What the runner should do after a step. `Wait` carries the sleep
   * duration in milliseconds; the model gives it no timing meaning.
   */
  datatype Outcome =
    | Continue
    | Done
    | Next(step: string)
    | Retry(hint: RetryHint)
    | Wait(millis: nat)
    | Fail(msg: string)

  /** The four error kinds, each with a human-readable message. */
  datatype StepError =
    | Invalid(msg: string)
    | Transient(msg: string)
    | Failed(msg: string)
    | Other(msg: string)

  /** What one agent invocation returns: the new state and an outcome, or an error. */
  type StepResult<S> = Result<(S, Outcome), StepError>

  /** `StepError::invalid`. */
  function InvalidError(msg: string): (e: StepError)
    ensures e.Invalid? && e.msg == msg
  {
    Invalid(msg)
  }

  /** `StepError::other`. */
  function OtherError(msg: string): (e: StepError)
    ensures e.Other? && e.msg == msg
  {
    Other(msg)
  }

  /** `StepError::transient`. */
  function TransientError(msg: string): (e: StepError)
    ensures e.Transient? && e.msg == msg
  {
    Transient(msg)
  }

  /** A standard-library I/O error, known here only by its display text. */
  datatype IoError = IoError(text: string)

  /** An HTTP client error, known here only by its display text. */
  datatype HttpError = HttpError(text: string)

  /** `From<std::io::Error>`: an I/O error becomes an uncategorised error with its text. */
  function FromIoError(e: IoError): (r: StepError)
    ensures r.Other? && r.msg == e.text
  {
    Other(e.text)
  }

  /** `From<ureq::Error>`: an HTTP client error is transient and keeps its text. */
  function FromHttpError(e: HttpError): (r: StepError)
    ensures r.Transient? && r.msg == e.text
  {
    Transient(e.text)
  }

  /** The label the display text puts before the message. */
  function KindPrefix(e: StepError): string
  {
    match e
    case Invalid(_) => "invalid: "
    case Transient(_) => "transient: "
    case Failed(_) => "failed: "
    case Other(_) => ""
  }

  predicate SameKind(e1: StepError, e2: StepError)
  {
    (e1.Invalid? && e2.Invalid?) || (e1.Transient? && e2.Transient?) ||
    (e1.Failed? && e2.Failed?) || (e1.Other? && e2.Other?)
  }

  /**
   * `impl Display for StepError`: the message follows a kind label, and an
   * uncategorised error shows its message alone.
   */
  function Display(e: StepError): (r: string)
    ensures r == KindPrefix(e) + e.msg
    ensures e.Other? ==> r == e.msg
  {
    match e
    case Invalid(m) => "invalid: " + m
    case Other(m) => m
    case Transient(m) => "transient: " + m
    case Failed(m) => "failed: " + m
  }

  /** Within one kind the display text determines the error. */
  lemma DisplayInjectiveWithinKind(e1: StepError, e2: StepError)
    requires SameKind(e1, e2)
    requires Display(e1) == Display(e2)
    ensures e1 == e2
  {
    var p := KindPrefix(e1);
    assert KindPrefix(e2) == p;
    assert e1.msg == Display(e1)[|p|..];
    assert e2.msg == Display(e2)[|p|..];
  }

  /**
   * Across kinds it does not: an uncategorised error whose message happens
   * to start with a label displays exactly like the labelled error.
   */
  lemma DisplayForgetsKind(m: string)
    ensures Display(Other("invalid: " + m)) == Display(Invalid(m))
    ensures Other("invalid: " + m) != Invalid(m)
  {
  }

  /** The display texts the error type's tests expect, one per kind. */
  lemma DisplayExamples()
    ensures Display(Invalid("bad input")) == "invalid: bad input"
    ensures Display(Other("something")) == "something"
    ensures Display(Transient("timeout")) == "transient: timeout"
    ensures Display(Failed("nope")) == "failed: nope"
  {
  }
}
