/** The manufacturer form: every field is a string, and the cleaner keeps exactly the
    fields that are not blank, trimmed. */
module ManufacturerForm {
  import opened Wrappers
  import opened Text
  import opened Payloads
  import opened Entities
  import FormSubmit

  /** The form values by field name. */
  type Values = map<string, string>

  const Fields: set<string> := {"name", "tax_id", "country", "website", "main_business_line"}

  /** `x || ''` for an optional string read through `initialData?.`. */
  function OrEmpty(x: Option<string>): string {
    if x.Some? then x.value else ""
  }

  /** Every field defaults to the record's value, or to the empty string. */
  function Defaults(initial: Option<Manufacturer>): (v: Values)
    ensures v.Keys == Fields
    ensures initial.None? ==> forall k :: k in v ==> v[k] == ""
    ensures initial.Some? ==> v["name"] == initial.value.name && v["website"] == OrEmpty(initial.value.website)
    ensures initial.Some? ==> && v["tax_id"] == OrEmpty(initial.value.tax_id)
                              && v["country"] == OrEmpty(initial.value.country)
                              && v["main_business_line"] == OrEmpty(initial.value.main_business_line)
  {
    match initial
    case None => map["name" := "", "tax_id" := "", "country" := "", "website" := "", "main_business_line" := ""]
    case Some(m) =>
      map["name" := m.name, "tax_id" := OrEmpty(m.tax_id), "country" := OrEmpty(m.country),
          "website" := OrEmpty(m.website), "main_business_line" := OrEmpty(m.main_business_line)]
  }

  /** Lengths of at most `max` for the limited fields; the website has no length rule. */
  predicate AtMost(v: Values, key: string, max: nat) {
    key in v ==> |v[key]| <= max
  }

  /** The field rules: a name of 1 to 255 characters, tax id and country of at most 100,
      business line of at most 255. */
  predicate Valid(v: Values) {
    && "name" in v && 1 <= |v["name"]| <= 255
    && AtMost(v, "tax_id", 100)
    && AtMost(v, "country", 100)
    && AtMost(v, "main_business_line", 255)
  }

  /** The fields that survive cleaning: each non-blank value, trimmed. */
  function Clean(v: Values): (r: Values)
    ensures forall k :: k in r <==> k in v && !AllWhitespace(v[k])
    ensures forall k :: k in r ==> r[k] == Trim(v[k])
  {
    map k | k in v && Trim(v[k]) != "" :: Trim(v[k])
  }

  /** Cleaning a cleaned form changes nothing. */
  lemma CleanIdempotent(v: Values)
    ensures Clean(Clean(v)) == Clean(v)
  {
    var c := Clean(v);
    forall k | k in c ensures Trim(c[k]) == c[k] && Trim(c[k]) != "" {
      TrimIdempotent(v[k]);
    }
  }

  /** A field left empty or holding only spaces is never sent: clearing a field while editing
      sends no key for it rather than an empty value. */
  lemma BlankFieldOmitted(v: Values, key: string)
    requires key in v && AllWhitespace(v[key])
    ensures key !in Clean(v)
  {
  }

  /** A name of spaces passes the length rule but is dropped, so such a payload has no name. */
  lemma BlankNameSentWithoutName(v: Values)
    requires Valid(v) && AllWhitespace(v["name"])
    ensures Valid(v) && "name" !in Clean(v)
  {
  }

  /** The payload: the cleaned fields as strings. */
  function Payload(v: Values): (p: Payload)
    ensures p.Keys <= v.Keys
    ensures forall k :: k in p <==> k in v && !AllWhitespace(v[k])
    ensures forall k :: k in p ==> p[k] == VStr(Trim(v[k]))
  {
    map k | k in Clean(v) :: VStr(Clean(v)[k])
  }

  function Submit(st: FormSubmit.FormState, v: Values, outcome: FormSubmit.Outcome): (a: FormSubmit.Attempt<Payload>)
    ensures a.submitted.Some? <==> !st.submitting && Valid(v)
    ensures a.submitted.Some? ==> a.submitted.value == Payload(v)
    ensures a.submitted.Some? && v.Keys <= Fields ==> a.submitted.value.Keys <= Fields
    ensures !st.submitting && Valid(v) ==> !a.state.submitting
  {
    FormSubmit.Submit(st, Valid(v), FormSubmit.Clean(Payload(v)), outcome, None)
  }
}
