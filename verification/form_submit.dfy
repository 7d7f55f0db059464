/** The submit cycle every form shares: the form library calls the handler only when
    the field rules pass; the handler clears the error, marks itself submitting, builds
    the payload, awaits the parent's `onSubmit`, shows the message of whatever was
    thrown, and always ends not submitting. */
module FormSubmit {
  import opened Wrappers

  /** The form's own state: the error shown above its fields and whether a submit is in flight. */
  datatype FormState = FormState(error: Option<string>, submitting: bool)

  const Idle := FormState(None, false)

  /** The payload built by a handler, or the message of an `Error` it threw while building it. */
  datatype Cleaned<P> = Clean(payload: P) | Thrown(message: string)

  /** How the parent's `onSubmit` settled: resolved, or rejected with an `Error` carrying `message`. */
  datatype Outcome = Accepted | Rejected(message: string)

  /** The form afterwards and the payload handed to `onSubmit`, if it was called. */
  datatype Attempt<P> = Attempt(state: FormState, submitted: Option<P>)

  /** Whether pressing submit runs the handler: the button is disabled while submitting,
      and the form library withholds the call while a field rule fails. */
  predicate Runs(st: FormState, valid: bool) {
    !st.submitting && valid
  }

  /** One press of the submit button. `fallback` is the message used when the thrown `Error`
      has an empty message (only the category form has one: `err.message || fallback`). */
  function Submit<P>(st: FormState, valid: bool, cleaned: Cleaned<P>, outcome: Outcome, fallback: Option<string>): (a: Attempt<P>)
    ensures !Runs(st, valid) ==> a.state == st && a.submitted.None?
    ensures Runs(st, valid) ==> !a.state.submitting
    ensures a.submitted.Some? <==> Runs(st, valid) && cleaned.Clean?
    ensures a.submitted.Some? ==> a.submitted.value == cleaned.payload
    ensures Runs(st, valid) ==> (a.state.error.None? <==> cleaned.Clean? && outcome.Accepted?)
    ensures Runs(st, valid) && cleaned.Thrown? ==> a.state.error == Some(ThrownMessage(cleaned.message, fallback))
    ensures Runs(st, valid) && cleaned.Clean? && outcome.Rejected? ==> a.state.error == Some(ThrownMessage(outcome.message, fallback))
  {
    if !Runs(st, valid) then Attempt(st, None)
    else
      match cleaned
      case Thrown(m) => Attempt(FormState(Some(ThrownMessage(m, fallback)), false), None)
      case Clean(p) =>
        match outcome
        case Accepted => Attempt(FormState(None, false), Some(p))
        case Rejected(m) => Attempt(FormState(Some(ThrownMessage(m, fallback)), false), Some(p))
  }

  /** `err.message`, or `err.message || fallback` when the form has a fallback. */
  function ThrownMessage(message: string, fallback: Option<string>): string {
    if message == "" && fallback.Some? then fallback.value else message
  }

  /** A failed attempt can be retried: the form is left idle except for the error, so the
      same press runs the handler again and hands over the same payload. */
  lemma FailureAllowsRetry<P>(st: FormState, cleaned: Cleaned<P>, message: string, fallback: Option<string>, outcome: Outcome)
    requires Runs(st, true)
    ensures var a := Submit(st, true, cleaned, Rejected(message), fallback);
      Runs(a.state, true) && Submit(a.state, true, cleaned, outcome, fallback).submitted == a.submitted
  {
  }
}
