/** How a screen's pieces are wired together: a form's submit handler awaits the
    screen's create or update handler, and the delete dialog's buttons reach the
    screen's delete handler or its close setter. */
module Flows {
  import opened Wrappers
  import opened Payloads
  import opened Screens
  import opened DeleteDialogs
  import FormSubmit
  import Api

  /** The screen and the form after one submit, and the request sent, if any. */
  datatype Flow<T> = Flow(screen: Screen<T>, form: FormSubmit.FormState, sent: Option<Api.Request>)

  /** How the form sees the screen handler it awaited: resolved, or rejected with the thrown message. */
  function OutcomeOf<T>(h: Handled<T>): (o: FormSubmit.Outcome)
    ensures o.Rejected? <==> h.thrown.Some?
    ensures o.Rejected? ==> o.message == h.thrown.value
  {
    if h.thrown.Some? then FormSubmit.Rejected(h.thrown.value) else FormSubmit.Accepted
  }

  /** Submitting the create form: the handler runs only when the form lets it, and its
      rejection becomes the form's error. */
  function SubmitCreate<T>(cfg: Config<T>, s: Screen<T>, st: FormSubmit.FormState, valid: bool,
                           cleaned: FormSubmit.Cleaned<Payload>, res: ApiResult<()>, fallback: Option<string>): (f: Flow<T>)
    ensures f.sent.Some? <==> FormSubmit.Runs(st, valid) && cleaned.Clean?
    ensures f.sent.Some? ==> f.sent == Some(Api.Create(cfg.resource, cleaned.payload))
    ensures f.sent.None? ==> f.screen == s
    ensures !FormSubmit.Runs(st, valid) ==> f.form == st
    ensures FormSubmit.Runs(st, valid) && cleaned.Thrown? ==> f.form == FormSubmit.FormState(Some(FormSubmit.ThrownMessage(cleaned.message, fallback)), false)
    ensures f.sent.Some? && res.Ok? ==> f.screen == LoadStart(s).(createOpen := false) && f.form == FormSubmit.Idle
    ensures f.sent.Some? && res.Err? ==>
      f.screen == s && f.form == FormSubmit.FormState(Some(FormSubmit.ThrownMessage(ErrorMessage(res.detail, cfg.messages.create), fallback)), false)
  {
    if FormSubmit.Runs(st, valid) && cleaned.Clean? then
      var h := HandleCreate(cfg, s, cleaned.payload, res);
      Flow(h.screen, FormSubmit.Submit(st, valid, cleaned, OutcomeOf(h), fallback).state, h.sent)
    else
      Flow(s, FormSubmit.Submit(st, valid, cleaned, FormSubmit.Accepted, fallback).state, None)
  }

  /** Submitting the edit form: as for create, and the PUT targets the item being edited. */
  function SubmitUpdate<T>(cfg: Config<T>, s: Screen<T>, st: FormSubmit.FormState, valid: bool,
                           cleaned: FormSubmit.Cleaned<Payload>, res: ApiResult<()>, fallback: Option<string>): (f: Flow<T>)
    ensures f.sent.Some? <==> FormSubmit.Runs(st, valid) && cleaned.Clean? && s.editing.Some?
    ensures f.sent.Some? ==> f.sent == Some(Api.Update(cfg.resource, cfg.idOf(s.editing.value), cleaned.payload))
    ensures f.sent.Some? && res.Ok? ==> f.screen == LoadStart(s).(editing := None) && f.form == FormSubmit.Idle
    ensures !(f.sent.Some? && res.Ok?) ==> f.screen == s
    ensures !FormSubmit.Runs(st, valid) ==> f.form == st
    ensures FormSubmit.Runs(st, valid) && cleaned.Thrown? ==> f.form == FormSubmit.FormState(Some(FormSubmit.ThrownMessage(cleaned.message, fallback)), false)
    ensures f.sent.Some? && res.Err? ==> f.form.error == Some(FormSubmit.ThrownMessage(ErrorMessage(res.detail, cfg.messages.update), fallback))
  {
    if FormSubmit.Runs(st, valid) && cleaned.Clean? then
      var h := HandleUpdate(cfg, s, cleaned.payload, res);
      Flow(h.screen, FormSubmit.Submit(st, valid, cleaned, OutcomeOf(h), fallback).state, h.sent)
    else
      Flow(s, FormSubmit.Submit(st, valid, cleaned, FormSubmit.Accepted, fallback).state, None)
  }

  /** The confirm button is live: the dialog is shown, open and not gated. */
  predicate Live(v: View) {
    v.Shown? && v.open && v.confirmEnabled
  }

  /** One press on the screen's delete dialog, rendered from the item awaiting deletion:
      confirm runs the delete handler, cancel and dismissal clear the item, anything else
      does nothing. */
  function DeleteStep<T>(cfg: Config<T>, render: Option<T> -> View, s: Screen<T>, p: Press, res: ApiResult<()>): (h: Handled<T>)
    ensures h.sent.Some? <==> Live(render(s.deleting)) && p == ConfirmButton && s.deleting.Some?
    ensures h.sent.Some? ==> h.sent == Some(Api.Remove(cfg.resource, cfg.idOf(s.deleting.value)))
    ensures Click(render(s.deleting), p) == Close ==> h.screen == s.(deleting := None)
    ensures Click(render(s.deleting), p) == NoEffect ==> h.screen == s
    ensures h.screen.items == s.items && h.thrown.None?
  {
    match Click(render(s.deleting), p)
    case Confirm => HandleDelete(cfg, s, res)
    case Close => Handled(Dispatch(s, CloseDelete), None, None)
    case NoEffect => Handled(s, None, None)
  }

  /** The screen and every request sent over a run of presses, each with the outcome its
      request would get. */
  datatype Session<T> = Session(screen: Screen<T>, sent: seq<Api.Request>)

  function DeleteRun<T>(cfg: Config<T>, render: Option<T> -> View, s: Screen<T>,
                        steps: seq<(Press, ApiResult<()>)>): (r: Session<T>)
    ensures |r.sent| <= |steps|
    decreases |steps|
  {
    if steps == [] then Session(s, [])
    else
      var h := DeleteStep(cfg, render, s, steps[0].0, steps[0].1);
      var rest := DeleteRun(cfg, render, h.screen, steps[1..]);
      Session(rest.screen, (if h.sent.Some? then [h.sent.value] else []) + rest.sent)
  }

  /** While the dialog's confirm button is not live, no run of presses deletes anything
      and the rows stay as they are: cancelling hides the dialog, and a hidden dialog
      reacts to nothing. */
  lemma {:induction false} BlockedNeverSends<T>(cfg: Config<T>, render: Option<T> -> View, s: Screen<T>,
                                                steps: seq<(Press, ApiResult<()>)>)
    requires render(None).Hidden?
    requires !Live(render(s.deleting))
    ensures DeleteRun(cfg, render, s, steps).sent == []
    ensures DeleteRun(cfg, render, s, steps).screen.items == s.items
    decreases |steps|
  {
    if steps != [] {
      var h := DeleteStep(cfg, render, s, steps[0].0, steps[0].1);
      assert h.sent.None?;
      BlockedNeverSends(cfg, render, h.screen, steps[1..]);
    }
  }

  /** Any run of presses deletes at most one item: the dialog's item is cleared by every
      confirm and every cancel. */
  lemma {:induction false} AtMostOneDeletion<T>(cfg: Config<T>, render: Option<T> -> View, s: Screen<T>,
                                                steps: seq<(Press, ApiResult<()>)>)
    requires render(None).Hidden?
    ensures |DeleteRun(cfg, render, s, steps).sent| <= 1
    decreases |steps|
  {
    if steps != [] {
      var h := DeleteStep(cfg, render, s, steps[0].0, steps[0].1);
      if h.sent.Some? {
        assert h.screen.deleting.None?;
        BlockedNeverSends(cfg, render, h.screen, steps[1..]);
      } else {
        AtMostOneDeletion(cfg, render, h.screen, steps[1..]);
      }
    }
  }
}
