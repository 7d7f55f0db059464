/** The manufacturers screen: rows from `/manufacturers/with-brands`, searched by name,
    country and business line, and a delete dialog gated on the brand count. */
module ManufacturersPage {
  import opened Wrappers
  import opened Text
  import opened Entities
  import opened Search
  import opened Screens
  import opened DeleteDialogs
  import Flows
  import FormSubmit
  import ManufacturerForm
  import Api

  const Msgs := Messages("Error al cargar los fabricantes", "Error al crear el fabricante",
                         "Error al actualizar el fabricante", "Error al eliminar el fabricante")

  const Cfg: Config<Manufacturer> := Config("manufacturers", (m: Manufacturer) => m.id, Msgs)

  function SearchFields(m: Manufacturer): seq<Option<string>> {
    [Some(m.name), m.country, m.main_business_line]
  }

  datatype Loaded = Loaded(request: Api.Request, screen: Screen<Manufacturer>)

  /** `loadManufacturers()`: the first page of manufacturers with their brand counts. */
  function LoadManufacturers(s: Screen<Manufacturer>, res: ApiResult<seq<Manufacturer>>): (r: Loaded)
    ensures r.request.path == "/manufacturers/with-brands"
    ensures Api.Sent(r.request.query, Api.Limit) == Some(Api.PInt(100))
    ensures !r.screen.loading && (r.screen.error.Some? <==> res.Err?)
    ensures res.Ok? ==> r.screen.items == res.data
    ensures res.Err? ==> r.screen.items == s.items && r.screen.error == Some(ErrorMessage(res.detail, Msgs.load))
  {
    Loaded(Api.ManufacturersGetWithBrands(None, None), Load(s, res, Msgs.load))
  }

  /** The rows shown: a manufacturer is listed when the search occurs, ignoring ASCII case,
      in its name, its country or its main business line. */
  function Rows(s: Screen<Manufacturer>): (r: seq<Manufacturer>)
    ensures |r| <= |s.items|
    ensures forall m :: m in r <==>
      (m in s.items
       && (Includes(Lower(m.name), Lower(s.search))
           || (m.country.Some? && Includes(Lower(m.country.value), Lower(s.search)))
           || (m.main_business_line.Some? && Includes(Lower(m.main_business_line.value), Lower(s.search)))))
  {
    var r := Visible(s, SearchFields);
    forall m ensures AnyFieldMatches(SearchFields(m), s.search)
        <==> FieldMatches(Some(m.name), s.search) || FieldMatches(m.country, s.search)
             || FieldMatches(m.main_business_line, s.search) {
      assert SearchFields(m)[0] == Some(m.name);
      assert SearchFields(m)[1] == m.country;
      assert SearchFields(m)[2] == m.main_business_line;
    }
    r
  }

  /** With an empty search box every manufacturer is listed, in the order loaded. */
  lemma EmptySearchListsAll(s: Screen<Manufacturer>)
    requires s.search == ""
    ensures Rows(s) == s.items
  {
    EmptyTermKeepsIff(s.items, SearchFields);
    forall i | 0 <= i < |s.items| ensures HasPresentField(SearchFields(s.items[i])) {
      assert SearchFields(s.items[i])[0].Some?;
    }
  }

  /** Submitting the create form: the cleaned (trimmed, blank-free) fields are posted. */
  function Create(s: Screen<Manufacturer>, st: FormSubmit.FormState, v: ManufacturerForm.Values, res: ApiResult<()>): (f: Flows.Flow<Manufacturer>)
    ensures f.sent.Some? <==> FormSubmit.Runs(st, ManufacturerForm.Valid(v))
    ensures f.sent.Some? ==> f.sent.value == Api.Create("manufacturers", ManufacturerForm.Payload(v))
    ensures f.sent.Some? && res.Ok? ==> !f.screen.createOpen && f.screen.loading && f.form == FormSubmit.Idle
    ensures f.sent.Some? && res.Err? ==> f.screen == s && f.form.error == Some(ErrorMessage(res.detail, Msgs.create))
  {
    Flows.SubmitCreate(Cfg, s, st, ManufacturerForm.Valid(v), FormSubmit.Clean(ManufacturerForm.Payload(v)), res, None)
  }

  /** Submitting the edit form. */
  function Update(s: Screen<Manufacturer>, st: FormSubmit.FormState, v: ManufacturerForm.Values, res: ApiResult<()>): (f: Flows.Flow<Manufacturer>)
    ensures f.sent.Some? <==> FormSubmit.Runs(st, ManufacturerForm.Valid(v)) && s.editing.Some?
    ensures f.sent.Some? ==> f.sent.value == Api.Update("manufacturers", s.editing.value.id, ManufacturerForm.Payload(v))
    ensures f.sent.Some? && res.Ok? ==> f.screen.editing.None? && f.screen.loading && f.form == FormSubmit.Idle
    ensures f.sent.Some? && res.Err? ==> f.screen == s && f.form.error == Some(ErrorMessage(res.detail, Msgs.update))
  {
    Flows.SubmitUpdate(Cfg, s, st, ManufacturerForm.Valid(v), FormSubmit.Clean(ManufacturerForm.Payload(v)), res, None)
  }

  /** Clearing a field while editing sends an update without that field, so the stored
      value is not cleared by the request. */
  lemma ClearedFieldNotSent(s: Screen<Manufacturer>, v: ManufacturerForm.Values, key: string, res: ApiResult<()>)
    requires s.editing.Some? && ManufacturerForm.Valid(v)
    requires key in v && AllWhitespace(v[key])
    ensures var f := Update(s, FormSubmit.Idle, v, res);
      f.sent.Some? && key !in f.sent.value.body.value
  {
  }

  function Render(d: Option<Manufacturer>): View {
    ManufacturerDialog(d, d.Some?)
  }

  /** One press on the delete dialog: only an enabled confirm on a manufacturer without
      brands sends the DELETE. */
  function PressDelete(s: Screen<Manufacturer>, p: Press, res: ApiResult<()>): (h: Handled<Manufacturer>)
    ensures h.sent.Some? <==> s.deleting.Some? && !Positive(s.deleting.value.brand_count) && p == ConfirmButton
    ensures h.sent.Some? ==> h.sent.value == Api.Remove("manufacturers", s.deleting.value.id)
    ensures h.sent.None? && p != ConfirmButton && s.deleting.Some? ==> h.screen == s.(deleting := None)
  {
    Flows.DeleteStep(Cfg, Render, s, p, res)
  }

  /** A manufacturer that still has brands is never deleted from this screen, whatever is pressed. */
  lemma ManufacturerWithBrandsKept(s: Screen<Manufacturer>, steps: seq<(Press, ApiResult<()>)>)
    requires s.deleting.Some? && Positive(s.deleting.value.brand_count)
    ensures Flows.DeleteRun(Cfg, Render, s, steps).sent == []
    ensures Flows.DeleteRun(Cfg, Render, s, steps).screen.items == s.items
  {
    Flows.BlockedNeverSends(Cfg, Render, s, steps);
  }
}
