/** The category form: its schema, its defaults, the parent select, and the cleaner
    that turns blank descriptions and falsy parent ids into `null`. */
module CategoryForm {
  import opened Wrappers
  import opened Text
  import opened Payloads
  import opened Entities
  import FormSubmit

  /** The form values after the schema has parsed them. */
  datatype Values = Values(name: string, description: Option<string>, parent_id: Option<string>, is_active: bool)

  const NameMax := 100
  const DescriptionMax := 500
  const SaveError := "Error al guardar la categoría"

  /** The parent select's item for "no parent (root category)". */
  const RootChoice := "none"

  predicate IsHex(c: char) {
    '0' <= c <= '9' || 'a' <= c <= 'f' || 'A' <= c <= 'F'
  }

  /** The textual UUID shape: hex groups of 8, 4, 4, 4 and 12 separated by hyphens, any case. */
  predicate IsUuid(s: string) {
    && |s| == 36
    && (forall i :: 0 <= i < 36 ==> (if i in {8, 13, 18, 23} then s[i] == '-' else IsHex(s[i])))
  }

  /** The schema: a name of 1 to 100 characters, a description of at most 500 when present,
      and a parent id that is a UUID when present. */
  predicate Schema(v: Values) {
    && 1 <= |v.name| <= NameMax
    && (v.description.Some? ==> |v.description.value| <= DescriptionMax)
    && (v.parent_id.Some? ==> IsUuid(v.parent_id.value))
  }

  /** The default values: an empty name and description, no parent, active unless told otherwise. */
  function Defaults(initial: Option<Category>): (v: Values)
    ensures initial.None? ==> v == Values("", Some(""), None, true)
    ensures initial.Some? ==> v.name == initial.value.name
    ensures initial.Some? ==> v.description == Some(if initial.value.description.Some? then initial.value.description.value else "")
    ensures initial.Some? ==> (v.parent_id.Some? <==> initial.value.parent_id.Some? && initial.value.parent_id.value != "")
    ensures v.parent_id.Some? ==> initial.Some? && v.parent_id == initial.value.parent_id
    ensures v.is_active == (initial.None? || initial.value.is_active != Some(false))
  {
    match initial
    case None => Values("", Some(""), None, true)
    case Some(c) =>
      Values(c.name,
             Some(if c.description.Some? then c.description.value else ""),
             if c.parent_id.Some? && c.parent_id.value != "" then c.parent_id else None,
             c.is_active.GetOr(true))
  }

  /** The parent select as written: every item's value, the root item's "none" included,
      becomes the field value. */
  function ChooseParentAsWritten(v: Values, item: string): (r: Values)
    ensures r.parent_id == Some(item)
    ensures r.name == v.name && r.description == v.description && r.is_active == v.is_active
  {
    v.(parent_id := Some(item))
  }

  /** Picking the root item with the select as written fails the schema, so the form
      can never be submitted after it, whatever the other fields hold. */
  lemma RootChoiceRejected(v: Values)
    ensures !Schema(ChooseParentAsWritten(v, RootChoice))
  {
    assert |RootChoice| == 4;
  }

  /** The parent select with the root item mapped to "no parent". */
  function ChooseParent(v: Values, item: string): (r: Values)
    ensures item == RootChoice ==> r.parent_id.None?
    ensures item != RootChoice ==> r.parent_id == Some(item)
    ensures r.name == v.name && r.description == v.description && r.is_active == v.is_active
  {
    v.(parent_id := if item == RootChoice then None else Some(item))
  }

  /** With the corrected select, picking the root item keeps valid values valid and
      sends `parent_id: null`; picking a listed category (whose id is a UUID) keeps them valid too. */
  lemma ChooseParentKeepsSchema(v: Values, item: string)
    requires Schema(v)
    requires item == RootChoice || IsUuid(item)
    ensures Schema(ChooseParent(v, item))
    ensures item == RootChoice ==> Payload(ChooseParent(v, item))["parent_id"] == VNull
  {
  }

  /** The keys of every payload the form sends. */
  const PayloadKeys: set<string> := {"name", "description", "parent_id", "is_active"}

  /** `{...data, description: data.description?.trim() || null, parent_id: data.parent_id || null}`:
      the description is trimmed and a blank one becomes null; a falsy parent id becomes
      null; name and is_active pass through unchanged. */
  function Payload(v: Values): (p: Payload)
    ensures p.Keys == PayloadKeys
    ensures p["name"] == VStr(v.name) && p["is_active"] == VBool(v.is_active)
    ensures p["description"] == (if v.description.Some? && !AllWhitespace(v.description.value)
                                 then VStr(Trim(v.description.value)) else VNull)
    ensures p["parent_id"] == (if v.parent_id.Some? && v.parent_id.value != "" then VStr(v.parent_id.value) else VNull)
  {
    var description := if v.description.Some? && Trim(v.description.value) != "" then VStr(Trim(v.description.value)) else VNull;
    var parent := if v.parent_id.Some? && v.parent_id.value != "" then VStr(v.parent_id.value) else VNull;
    map["name" := VStr(v.name), "description" := description, "parent_id" := parent, "is_active" := VBool(v.is_active)]
  }

  /** Cleaning is stable: values read back from a cleaned payload clean to the same payload. */
  lemma PayloadStable(v: Values)
    ensures var p := Payload(v);
      Payload(v.(description := if p["description"].VStr? then Some(p["description"].s) else None,
                 parent_id := if p["parent_id"].VStr? then Some(p["parent_id"].s) else None)) == p
  {
    if v.description.Some? && !AllWhitespace(v.description.value) {
      TrimIdempotent(v.description.value);
    }
  }

  /** Pressing submit: the schema decides whether the handler runs; a rejection with an
      empty message shows the fallback. */
  function Submit(st: FormSubmit.FormState, v: Values, outcome: FormSubmit.Outcome): (a: FormSubmit.Attempt<Payload>)
    ensures a.submitted.Some? <==> !st.submitting && Schema(v)
    ensures a.submitted.Some? ==> a.submitted.value == Payload(v)
    ensures !st.submitting && Schema(v) && outcome == FormSubmit.Rejected("") ==> a.state.error == Some(SaveError)
  {
    FormSubmit.Submit(st, Schema(v), FormSubmit.Clean(Payload(v)), outcome, Some(SaveError))
  }
}
