/** The store form: its rules and defaults; the submit handler forwards the form
    values unchanged. */
module StoreForm {
  import opened Wrappers
  import opened Payloads
  import opened Entities
  import FormSubmit

  datatype Values = Values(name: string, base_url: string, active: bool)

  const NameMax := 255

  function Defaults(initial: Option<Store>): (v: Values)
    ensures initial.None? ==> v == Values("", "", true)
    ensures initial.Some? ==> v.name == initial.value.name && v.base_url == initial.value.base_url.GetOr("")
    ensures v.active == (initial.None? || initial.value.active != Some(false))
  {
    match initial
    case None => Values("", "", true)
    case Some(s) => Values(s.name, s.base_url.GetOr(""), s.active.GetOr(true))
  }

  /** The rules: a name of 1 to 255 characters and a non-empty base URL. */
  predicate Valid(v: Values) {
    1 <= |v.name| <= NameMax && v.base_url != ""
  }

  /** The values as sent: nothing is trimmed and no key is dropped. */
  function Payload(v: Values): (p: Payload)
    ensures p.Keys == {"name", "base_url", "active"}
    ensures p["name"] == VStr(v.name) && p["base_url"] == VStr(v.base_url) && p["active"] == VBool(v.active)
  {
    map["name" := VStr(v.name), "base_url" := VStr(v.base_url), "active" := VBool(v.active)]
  }

  /** The payload determines the values: different values are never sent alike. */
  lemma PayloadInjective(v: Values, w: Values)
    ensures Payload(v) == Payload(w) <==> v == w
  {
    if Payload(v) == Payload(w) {
      assert Payload(v)["name"] == Payload(w)["name"];
      assert Payload(v)["base_url"] == Payload(w)["base_url"];
      assert Payload(v)["active"] == Payload(w)["active"];
    }
  }

  function Submit(st: FormSubmit.FormState, v: Values, outcome: FormSubmit.Outcome): (a: FormSubmit.Attempt<Payload>)
    ensures a.submitted.Some? <==> !st.submitting && Valid(v)
    ensures a.submitted.Some? ==> a.submitted.value == Payload(v)
    ensures !st.submitting && Valid(v) && outcome.Rejected? ==> a.state == FormSubmit.FormState(Some(outcome.message), false)
  {
    FormSubmit.Submit(st, Valid(v), FormSubmit.Clean(Payload(v)), outcome, None)
  }
}
