/** The catalog product form: its defaults, its field rules, and the payload its
    submit handler builds (trimmed optional SKU, the 'none' sentinel dropped,
    attributes parsed from JSON text). `JSON.parse` and `JSON.stringify` are
    parameters: `parse` yields `None` where `JSON.parse` throws. */
module CatalogForm {
  import opened Wrappers
  import opened Text
  import opened Payloads
  import opened Entities
  import FormSubmit

  /** The form values react-hook-form hands to the submit handler. */
  datatype Values = Values(name: string, sku: string, brand_id: string, category_id: string, active: bool)

  /** The select value meaning "no brand" / "no category". */
  const NoneChoice := "none"

  const AttributesError := "Los atributos deben ser un JSON válido"

  const NameMax := 500
  const SkuMax := 100

  /** `x || ''` for an optional string read through `initialData?.`. */
  function OrEmpty(x: Option<string>): string {
    if x.Some? then x.value else ""
  }

  /** The default values: empty strings, the 'none' sentinel for the selects, and active unless told otherwise. */
  function Defaults(initial: Option<CatalogProduct>): (v: Values)
    ensures initial.None? ==> v == Values("", "", NoneChoice, NoneChoice, true)
    ensures initial.Some? ==> v.name == initial.value.name && v.sku == OrEmpty(initial.value.sku)
    ensures initial.Some? && initial.value.brand_id.Some? && initial.value.brand_id.value != "" ==> v.brand_id == initial.value.brand_id.value
    ensures initial.Some? && !(initial.value.brand_id.Some? && initial.value.brand_id.value != "") ==> v.brand_id == NoneChoice
    ensures initial.Some? && initial.value.category_id.Some? && initial.value.category_id.value != "" ==> v.category_id == initial.value.category_id.value
    ensures initial.Some? && !(initial.value.category_id.Some? && initial.value.category_id.value != "") ==> v.category_id == NoneChoice
    ensures v.active == (initial.None? || initial.value.active != Some(false))
  {
    match initial
    case None => Values("", "", NoneChoice, NoneChoice, true)
    case Some(p) =>
      Values(p.name, OrEmpty(p.sku),
             if p.brand_id.Some? && p.brand_id.value != "" then p.brand_id.value else NoneChoice,
             if p.category_id.Some? && p.category_id.value != "" then p.category_id.value else NoneChoice,
             p.active.GetOr(true))
  }

  /** The initial attributes text: the stringified attributes when they are truthy, else empty. */
  function AttributesText(initial: Option<CatalogProduct>, stringify: Json -> string): (t: string)
    ensures initial.Some? && initial.value.attributes.Some? && JsonTruthy(initial.value.attributes.value)
        ==> t == stringify(initial.value.attributes.value)
    ensures !(initial.Some? && initial.value.attributes.Some? && JsonTruthy(initial.value.attributes.value)) ==> t == ""
  {
    if initial.Some? && initial.value.attributes.Some? && JsonTruthy(initial.value.attributes.value)
    then stringify(initial.value.attributes.value) else ""
  }

  /** The field rules: a name of 1 to 500 characters and a SKU of at most 100. */
  predicate Valid(v: Values) {
    1 <= |v.name| <= NameMax && |v.sku| <= SkuMax
  }

  /** A select value that names a real record. */
  predicate Chosen(id: string) {
    id != "" && id != NoneChoice
  }

  /** The keys the handler can put in a payload. */
  const PayloadKeys: set<string> := FieldKeys + {"attributes"}

  /** The keys of the payload other than the attributes. */
  const FieldKeys: set<string> := {"name", "active", "sku", "brand_id", "category_id"}

  lemma AttributesNotAField()
    ensures "attributes" !in FieldKeys
  {
  }

  /** The payload's fields other than the attributes: name (untrimmed) and active always;
      sku trimmed when not blank; brand and category ids when chosen. */
  function Fields(v: Values): (p: Payload)
    ensures p.Keys <= FieldKeys
    ensures "name" in p && p["name"] == VStr(v.name)
    ensures "active" in p && p["active"] == VBool(v.active)
    ensures "sku" in p <==> !AllWhitespace(v.sku)
    ensures "sku" in p ==> p["sku"] == VStr(Trim(v.sku))
    ensures "brand_id" in p <==> Chosen(v.brand_id)
    ensures "brand_id" in p ==> p["brand_id"] == VStr(v.brand_id)
    ensures "category_id" in p <==> Chosen(v.category_id)
    ensures "category_id" in p ==> p["category_id"] == VStr(v.category_id)
  {
    var p0 := map["name" := VStr(v.name), "active" := VBool(v.active)];
    var p1 := PutIf(p0, Trim(v.sku) != "", "sku", VStr(Trim(v.sku)));
    var p2 := PutIf(p1, Chosen(v.brand_id), "brand_id", VStr(v.brand_id));
    PutIf(p2, Chosen(v.category_id), "category_id", VStr(v.category_id))
  }

  /** The fields above with the parsed attributes added. */
  function WithAttributes(v: Values, j: Json): (p: Payload)
    ensures p.Keys == Fields(v).Keys + {"attributes"} && p.Keys <= PayloadKeys
    ensures p["attributes"] == VJson(j)
    ensures forall k :: k in Fields(v) ==> p[k] == Fields(v)[k]
  {
    AttributesNotAField();
    PutIf(Fields(v), true, "attributes", VJson(j))
  }

  /** The payload built before `onSubmit`: the fields above, plus the attributes when the
      text is not blank, where unparsable text throws instead. */
  function Clean(v: Values, attributesText: string, parse: string -> Option<Json>): (c: FormSubmit.Cleaned<Payload>)
    ensures c.Thrown? <==> !AllWhitespace(attributesText) && parse(attributesText).None?
    ensures c.Thrown? ==> c.message == AttributesError
    ensures c.Clean? ==> c.payload.Keys <= PayloadKeys
    ensures c.Clean? ==> forall k :: k in Fields(v) ==> k in c.payload && c.payload[k] == Fields(v)[k]
    ensures c.Clean? ==> forall k :: k in c.payload && k != "attributes" ==> k in Fields(v)
    ensures c.Clean? ==> ("attributes" in c.payload <==> !AllWhitespace(attributesText))
    ensures c.Clean? && "attributes" in c.payload ==> c.payload["attributes"] == VJson(parse(attributesText).value)
  {
    if Trim(attributesText) == "" then
      assert AllWhitespace(attributesText);
      AttributesNotAField();
      FormSubmit.Clean(Fields(v))
    else
      assert !AllWhitespace(attributesText);
      match parse(attributesText)
      case None => FormSubmit.Thrown(AttributesError)
      case Some(j) => FormSubmit.Clean(WithAttributes(v, j))
  }

  /** Pressing submit on the form. */
  function Submit(st: FormSubmit.FormState, v: Values, attributesText: string, parse: string -> Option<Json>,
                  outcome: FormSubmit.Outcome): (a: FormSubmit.Attempt<Payload>)
    ensures a.submitted.Some? <==> !st.submitting && Valid(v) && (AllWhitespace(attributesText) || parse(attributesText).Some?)
    ensures a.submitted.Some? ==> a.submitted.value == Clean(v, attributesText, parse).payload
    ensures a.submitted.Some? ==> a.submitted.value.Keys <= PayloadKeys
    ensures a.submitted.Some? ==> forall k :: k in Fields(v) ==> k in a.submitted.value && a.submitted.value[k] == Fields(v)[k]
    ensures a.submitted.Some? ==> ("attributes" in a.submitted.value <==> !AllWhitespace(attributesText))
    ensures !st.submitting && Valid(v) ==> !a.state.submitting
    ensures !st.submitting && Valid(v) && !AllWhitespace(attributesText) && parse(attributesText).None?
        ==> a.submitted.None? && a.state == FormSubmit.FormState(Some(AttributesError), false)
  {
    FormSubmit.Submit(st, Valid(v), Clean(v, attributesText, parse), outcome, None)
  }

  /** Opening a product for editing and submitting it untouched re-sends its attributes,
      provided the stringified text parses back to the same value. */
  lemma EditResendsAttributes(p: CatalogProduct, stringify: Json -> string, parse: string -> Option<Json>)
    requires p.attributes.Some? && JsonTruthy(p.attributes.value)
    requires parse(stringify(p.attributes.value)) == Some(p.attributes.value)
    requires !AllWhitespace(stringify(p.attributes.value))
    ensures var c := Clean(Defaults(Some(p)), AttributesText(Some(p), stringify), parse);
      c.Clean? && c.payload["attributes"] == VJson(p.attributes.value)
  {
  }

  /** Opening a product for editing and submitting it untouched re-sends its name and its
      SKU trimmed; a SKU absent or blank stays absent. */
  lemma EditResendsFields(p: CatalogProduct, text: string, parse: string -> Option<Json>)
    requires AllWhitespace(text) || parse(text).Some?
    ensures var c := Clean(Defaults(Some(p)), text, parse);
      && c.Clean?
      && c.payload["name"] == VStr(p.name)
      && ("sku" in c.payload <==> p.sku.Some? && !AllWhitespace(p.sku.value))
  {
    var v := Defaults(Some(p));
    assert "sku" in Clean(v, text, parse).payload <==> "sku" in Fields(v);
    if p.sku.None? {
      assert AllWhitespace("");
    }
  }

  /** Untouched, the edit form re-sends the product's brand and category when it has them,
      and never sends one it does not have. */
  lemma EditResendsIds(p: CatalogProduct, text: string, parse: string -> Option<Json>)
    requires AllWhitespace(text) || parse(text).Some?
    ensures var c := Clean(Defaults(Some(p)), text, parse);
      && c.Clean?
      && (p.brand_id.Some? && Chosen(p.brand_id.value) ==> c.payload["brand_id"] == VStr(p.brand_id.value))
      && ("brand_id" in c.payload ==> p.brand_id.Some?)
      && (p.category_id.Some? && Chosen(p.category_id.value) ==> c.payload["category_id"] == VStr(p.category_id.value))
      && ("category_id" in c.payload ==> p.category_id.Some?)
  {
    var v := Defaults(Some(p));
    assert "brand_id" in Clean(v, text, parse).payload <==> "brand_id" in Fields(v);
    assert "category_id" in Clean(v, text, parse).payload <==> "category_id" in Fields(v);
  }

  /** A new product submitted with every optional field left alone sends exactly name and active. */
  lemma NewProductMinimalPayload(name: string, parse: string -> Option<Json>)
    ensures var c := Clean(Defaults(None).(name := name), "", parse);
      c.Clean? && c.payload == map["name" := VStr(name), "active" := VBool(true)]
  {
    var c := Clean(Defaults(None).(name := name), "", parse);
    assert AllWhitespace("");
    assert c.payload.Keys == {"name", "active"};
  }
}
