/** The brands screen: rows from `/brands/with-manufacturer`, searched by name and
    manufacturer name, the manufacturer options for its form, and its delete dialog
    gated on the brand's product count. */
module BrandsPage {
  import opened Wrappers
  import opened Text
  import opened Entities
  import opened Search
  import opened Screens
  import opened DeleteDialogs
  import Flows
  import FormSubmit
  import BrandForm
  import Api

  const Msgs := Messages("Error al cargar las marcas", "Error al crear la marca",
                         "Error al actualizar la marca", "Error al eliminar la marca")

  const Cfg: Config<Brand> := Config("brands", (b: Brand) => b.id, Msgs)

  /** The searched fields: the name, and the manufacturer name when present. */
  function SearchFields(b: Brand): seq<Option<string>> {
    [Some(b.name), b.manufacturer_name]
  }

  /** A loaded screen and the request that loaded it. */
  datatype Loaded = Loaded(request: Api.Request, screen: Screen<Brand>)

  /** `loadBrands()`: the brands with their manufacturer, all of them, active or not. */
  function LoadBrands(s: Screen<Brand>, res: ApiResult<seq<Brand>>): (r: Loaded)
    ensures r.request.path == "/brands/with-manufacturer"
    ensures Api.Sent(r.request.query, Api.ActiveOnly) == Some(Api.PBool(false))
    ensures !r.screen.loading && (r.screen.error.Some? <==> res.Err?)
    ensures res.Ok? ==> r.screen.items == res.data
    ensures res.Err? ==> r.screen.items == s.items && r.screen.error == Some(ErrorMessage(res.detail, Msgs.load))
  {
    Loaded(Api.BrandsGetWithManufacturer(None, None, None), Load(s, res, Msgs.load))
  }

  /** `loadManufacturers()`: the form's options are replaced on success and kept on failure,
      with no error shown either way. */
  function LoadManufacturers(options: seq<Manufacturer>, res: ApiResult<seq<Manufacturer>>): (r: (Api.Request, seq<Manufacturer>))
    ensures r.0.path == "/manufacturers"
    ensures Api.Sent(r.0.query, Api.Search).None? && Api.Sent(r.0.query, Api.Country).None?
    ensures res.Ok? ==> r.1 == res.data
    ensures res.Err? ==> r.1 == options
  {
    (Api.ManufacturersGetAll(None, None, None, None), if res.Ok? then res.data else options)
  }

  /** The rows shown: a brand is listed when the search occurs, ignoring ASCII case, in its
      name or in its manufacturer's name. */
  function Rows(s: Screen<Brand>): (r: seq<Brand>)
    ensures |r| <= |s.items|
    ensures forall b :: b in r <==>
      (b in s.items
       && (Includes(Lower(b.name), Lower(s.search))
           || (b.manufacturer_name.Some? && Includes(Lower(b.manufacturer_name.value), Lower(s.search)))))
  {
    var r := Visible(s, SearchFields);
    forall b ensures AnyFieldMatches(SearchFields(b), s.search)
        <==> FieldMatches(Some(b.name), s.search) || FieldMatches(b.manufacturer_name, s.search) {
      assert SearchFields(b)[0] == Some(b.name);
      assert SearchFields(b)[1] == b.manufacturer_name;
    }
    r
  }

  /** With an empty search box every brand is listed, in the order loaded. */
  lemma EmptySearchListsAll(s: Screen<Brand>)
    requires s.search == ""
    ensures Rows(s) == s.items
  {
    EmptyTermKeepsIff(s.items, SearchFields);
    forall i | 0 <= i < |s.items| ensures HasPresentField(SearchFields(s.items[i])) {
      assert SearchFields(s.items[i])[0].Some?;
    }
  }

  /** Submitting the create form. */
  function Create(s: Screen<Brand>, st: FormSubmit.FormState, v: BrandForm.Values, res: ApiResult<()>): (f: Flows.Flow<Brand>)
    ensures f.sent.Some? <==> FormSubmit.Runs(st, BrandForm.Valid(v))
    ensures f.sent.Some? ==> f.sent.value == Api.Create("brands", BrandForm.Payload(v))
    ensures f.sent.Some? && res.Ok? ==> !f.screen.createOpen && f.screen.loading && f.form == FormSubmit.Idle
    ensures f.sent.Some? && res.Err? ==> f.screen == s && f.form.error == Some(ErrorMessage(res.detail, Msgs.create))
  {
    Flows.SubmitCreate(Cfg, s, st, BrandForm.Valid(v), FormSubmit.Clean(BrandForm.Payload(v)), res, None)
  }

  /** Submitting the edit form. */
  function Update(s: Screen<Brand>, st: FormSubmit.FormState, v: BrandForm.Values, res: ApiResult<()>): (f: Flows.Flow<Brand>)
    ensures f.sent.Some? <==> FormSubmit.Runs(st, BrandForm.Valid(v)) && s.editing.Some?
    ensures f.sent.Some? ==> f.sent.value == Api.Update("brands", s.editing.value.id, BrandForm.Payload(v))
    ensures f.sent.Some? && res.Ok? ==> f.screen.editing.None? && f.screen.loading && f.form == FormSubmit.Idle
    ensures f.sent.Some? && res.Err? ==> f.screen == s && f.form.error == Some(ErrorMessage(res.detail, Msgs.update))
  {
    Flows.SubmitUpdate(Cfg, s, st, BrandForm.Valid(v), FormSubmit.Clean(BrandForm.Payload(v)), res, None)
  }

  /** Opening a brand for editing and saving it untouched re-sends its name and state, and
      its manufacturer exactly when it had one. */
  lemma EditUntouchedResends(s: Screen<Brand>, res: ApiResult<()>)
    requires s.editing.Some? && 1 <= |s.editing.value.name| <= BrandForm.NameMax
    ensures var b := s.editing.value;
      var f := Update(s, FormSubmit.Idle, BrandForm.Defaults(s.editing), res);
      && f.sent.Some?
      && f.sent.value.body.value["name"] == Payloads.VStr(b.name)
      && ("manufacturer_id" in f.sent.value.body.value
          <==> b.manufacturer_id.Some? && b.manufacturer_id.value != "" && b.manufacturer_id.value != BrandForm.NoneChoice)
  {
  }

  /** The dialog as the screen renders it: open exactly while a brand awaits deletion. */
  function Render(d: Option<Brand>): View {
    BrandDialog(d, d.Some?)
  }

  /** One press on the delete dialog: only an enabled confirm on a brand without products
      sends the DELETE. */
  function PressDelete(s: Screen<Brand>, p: Press, res: ApiResult<()>): (h: Handled<Brand>)
    ensures h.sent.Some? <==> s.deleting.Some? && !Positive(s.deleting.value.product_count) && p == ConfirmButton
    ensures h.sent.Some? ==> h.sent.value == Api.Remove("brands", s.deleting.value.id)
    ensures h.sent.None? && p != ConfirmButton && s.deleting.Some? ==> h.screen == s.(deleting := None)
  {
    Flows.DeleteStep(Cfg, Render, s, p, res)
  }

  /** A brand that still has products is never deleted from this screen, whatever is pressed. */
  lemma BrandWithProductsKept(s: Screen<Brand>, steps: seq<(Press, ApiResult<()>)>)
    requires s.deleting.Some? && Positive(s.deleting.value.product_count)
    ensures Flows.DeleteRun(Cfg, Render, s, steps).sent == []
    ensures Flows.DeleteRun(Cfg, Render, s, steps).screen.items == s.items
  {
    Flows.BlockedNeverSends(Cfg, Render, s, steps);
  }
}
