/** The brand form: defaults, the name rule, the manufacturer select with its 'none'
    item, and the cleaner that drops an unset manufacturer. */
module BrandForm {
  import opened Wrappers
  import opened Payloads
  import opened Entities
  import FormSubmit

  /** The form values; the manufacturer is null after picking the 'none' item. */
  datatype Values = Values(name: string, manufacturer_id: Option<string>, active: bool)

  const NoneChoice := "none"
  const NameMax := 255

  function Defaults(initial: Option<Brand>): (v: Values)
    ensures initial.None? ==> v == Values("", Some(""), true)
    ensures initial.Some? ==> v.name == initial.value.name
    ensures initial.Some? ==> v.manufacturer_id == Some(initial.value.manufacturer_id.GetOr(""))
    ensures v.active == (initial.None? || initial.value.active != Some(false))
  {
    match initial
    case None => Values("", Some(""), true)
    case Some(b) => Values(b.name, Some(b.manufacturer_id.GetOr("")), b.active.GetOr(true))
  }

  /** The name rule: required, 1 to 255 characters. */
  predicate Valid(v: Values) {
    1 <= |v.name| <= NameMax
  }

  /** A manufacturer is set: the value is truthy and not the 'none' item. */
  predicate HasManufacturer(v: Values) {
    v.manufacturer_id.Some? && v.manufacturer_id.value != "" && v.manufacturer_id.value != NoneChoice
  }

  /** The select's displayed item: 'none' whenever the manufacturer is empty or null. */
  function Display(v: Values): (item: string)
    ensures item == NoneChoice <==> !HasManufacturer(v)
    ensures HasManufacturer(v) ==> item == v.manufacturer_id.value
  {
    if v.manufacturer_id.Some? && v.manufacturer_id.value != "" then v.manufacturer_id.value else NoneChoice
  }

  /** Picking an item: 'none' sets the manufacturer to null, anything else to that id. */
  function Select(v: Values, item: string): (r: Values)
    ensures r.manufacturer_id == (if item == NoneChoice then None else Some(item))
    ensures r.name == v.name && r.active == v.active
  {
    v.(manufacturer_id := if item == NoneChoice then None else Some(item))
  }

  /** The select shows what was picked: picking any item and reading the display gives it back. */
  lemma SelectDisplayRoundTrip(v: Values, item: string)
    requires item != ""
    ensures Display(Select(v, item)) == item
  {
  }

  /** `{name, active}` plus the manufacturer when one is set. */
  function Payload(v: Values): (p: Payload)
    ensures p.Keys == if HasManufacturer(v) then {"name", "active", "manufacturer_id"} else {"name", "active"}
    ensures p["name"] == VStr(v.name) && p["active"] == VBool(v.active)
    ensures HasManufacturer(v) ==> p["manufacturer_id"] == VStr(v.manufacturer_id.value)
  {
    var base := map["name" := VStr(v.name), "active" := VBool(v.active)];
    if HasManufacturer(v) then base["manufacturer_id" := VStr(v.manufacturer_id.value)] else base
  }

  /** Picking 'none' always leads to a payload without a manufacturer; picking an id sends it. */
  lemma SelectThenPayload(v: Values, item: string)
    ensures "manufacturer_id" in Payload(Select(v, item)) <==> item != NoneChoice && item != ""
    ensures item != NoneChoice && item != "" ==> Payload(Select(v, item))["manufacturer_id"] == VStr(item)
  {
  }

  function Submit(st: FormSubmit.FormState, v: Values, outcome: FormSubmit.Outcome): (a: FormSubmit.Attempt<Payload>)
    ensures a.submitted.Some? <==> !st.submitting && Valid(v)
    ensures a.submitted.Some? ==> a.submitted.value == Payload(v)
    ensures !st.submitting && Valid(v) ==> !a.state.submitting
  {
    FormSubmit.Submit(st, Valid(v), FormSubmit.Clean(Payload(v)), outcome, None)
  }
}
