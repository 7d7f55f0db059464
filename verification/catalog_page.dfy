/** The catalog products screen: rows from `/products-catalog/with-details`, searched
    by name, SKU, brand and category, the brand and category options for its form, and
    its create, update and delete handlers. */
module CatalogPage {
  import opened Wrappers
  import opened Text
  import opened Payloads
  import opened Entities
  import opened Search
  import opened Screens
  import Flows
  import FormSubmit
  import CatalogForm
  import Api

  const Msgs := Messages("Error al cargar los productos", "Error al crear el producto",
                         "Error al actualizar el producto", "Error al eliminar el producto")

  const Cfg: Config<CatalogProduct> := Config("products-catalog", (p: CatalogProduct) => p.id, Msgs)

  function SearchFields(p: CatalogProduct): seq<Option<string>> {
    [Some(p.name), p.sku, p.brand_name, p.category_name]
  }

  datatype Loaded = Loaded(request: Api.Request, screen: Screen<CatalogProduct>)

  /** `loadProducts()`: the products with brand and category names, active or not. */
  function LoadProducts(s: Screen<CatalogProduct>, res: ApiResult<seq<CatalogProduct>>): (r: Loaded)
    ensures r.request.path == "/products-catalog/with-details"
    ensures Api.Sent(r.request.query, Api.ActiveOnly) == Some(Api.PBool(false))
    ensures !r.screen.loading && (r.screen.error.Some? <==> res.Err?)
    ensures res.Ok? ==> r.screen.items == res.data
    ensures res.Err? ==> r.screen.items == s.items && r.screen.error == Some(ErrorMessage(res.detail, Msgs.load))
  {
    Loaded(Api.ProductsCatalogGetWithDetails(None, None, None), Load(s, res, Msgs.load))
  }

  /** The options the form's selects offer. */
  datatype Options = Options(brands: seq<Brand>, categories: seq<Category>)

  /** `loadFormData()`: both lists are fetched together and replace the options only when
      both arrive; a failure of either keeps the options as they were and shows nothing. */
  function LoadFormData(o: Options, brands: ApiResult<seq<Brand>>, categories: ApiResult<seq<Category>>): (r: (seq<Api.Request>, Options))
    ensures |r.0| == 2 && r.0[0].path == "/brands" && r.0[1].path == "/categories"
    ensures Api.Sent(r.0[0].query, Api.ActiveOnly).None? && Api.Sent(r.0[0].query, Api.Search).None?
    ensures brands.Ok? && categories.Ok? ==> r.1 == Options(brands.data, categories.data)
    ensures brands.Err? || categories.Err? ==> r.1 == o
  {
    var requests := [Api.BrandsGetAll(None, None, None, None, None), Api.CategoriesGetAll(None, None)];
    if brands.Ok? && categories.Ok? then (requests, Options(brands.data, categories.data)) else (requests, o)
  }

  /** The rows shown: a product is listed when the search occurs, ignoring ASCII case, in its
      name, or in its SKU, brand name or category name when present. */
  function Rows(s: Screen<CatalogProduct>): (r: seq<CatalogProduct>)
    ensures |r| <= |s.items|
    ensures forall p :: p in r <==>
      (p in s.items
       && (Includes(Lower(p.name), Lower(s.search))
           || (p.sku.Some? && Includes(Lower(p.sku.value), Lower(s.search)))
           || (p.brand_name.Some? && Includes(Lower(p.brand_name.value), Lower(s.search)))
           || (p.category_name.Some? && Includes(Lower(p.category_name.value), Lower(s.search)))))
  {
    var r := Visible(s, SearchFields);
    forall p ensures AnyFieldMatches(SearchFields(p), s.search)
        <==> FieldMatches(Some(p.name), s.search) || FieldMatches(p.sku, s.search)
             || FieldMatches(p.brand_name, s.search) || FieldMatches(p.category_name, s.search) {
      assert SearchFields(p)[0] == Some(p.name);
      assert SearchFields(p)[1] == p.sku;
      assert SearchFields(p)[2] == p.brand_name;
      assert SearchFields(p)[3] == p.category_name;
    }
    r
  }

  /** With an empty search box every product is listed, in the order loaded. */
  lemma EmptySearchListsAll(s: Screen<CatalogProduct>)
    requires s.search == ""
    ensures Rows(s) == s.items
  {
    EmptyTermKeepsIff(s.items, SearchFields);
    forall i | 0 <= i < |s.items| ensures HasPresentField(SearchFields(s.items[i])) {
      assert SearchFields(s.items[i])[0].Some?;
    }
  }

  /** Submitting the create form with its attributes text: the POST carries the cleaned
      payload, and is sent only when the fields are valid and the attributes are blank or parse. */
  function Create(s: Screen<CatalogProduct>, st: FormSubmit.FormState, v: CatalogForm.Values, text: string,
                  parse: string -> Option<Json>, res: ApiResult<()>): (f: Flows.Flow<CatalogProduct>)
    ensures f.sent.Some? <==> FormSubmit.Runs(st, CatalogForm.Valid(v)) && (AllWhitespace(text) || parse(text).Some?)
    ensures f.sent.Some? ==>
      CatalogForm.Clean(v, text, parse).Clean?
      && f.sent.value == Api.Create("products-catalog", CatalogForm.Clean(v, text, parse).payload)
  {
    var c := CatalogForm.Clean(v, text, parse);
    assert c.Clean? <==> AllWhitespace(text) || parse(text).Some?;
    Flows.SubmitCreate(Cfg, s, st, CatalogForm.Valid(v), c, res, None)
  }

  /** Unparsable attributes stop the create submit in the form, before any request. */
  lemma CreateBadAttributes(s: Screen<CatalogProduct>, st: FormSubmit.FormState, v: CatalogForm.Values, text: string,
                            parse: string -> Option<Json>, res: ApiResult<()>)
    requires FormSubmit.Runs(st, CatalogForm.Valid(v)) && !AllWhitespace(text) && parse(text).None?
    ensures var f := Create(s, st, v, text, parse, res);
      f.sent.None? && f.screen == s && f.form.error == Some(CatalogForm.AttributesError) && !f.form.submitting
  {
  }

  /** After the POST: success closes the dialog and reloads; failure keeps the screen and
      shows the backend's detail or the screen's message in the form. */
  lemma CreateOutcome(s: Screen<CatalogProduct>, st: FormSubmit.FormState, v: CatalogForm.Values, text: string,
                      parse: string -> Option<Json>, res: ApiResult<()>)
    requires Create(s, st, v, text, parse, res).sent.Some?
    ensures var f := Create(s, st, v, text, parse, res);
      && (res.Ok? ==> !f.screen.createOpen && f.screen.loading && f.form == FormSubmit.Idle)
      && (res.Err? ==> f.screen == s && f.form.error == Some(ErrorMessage(res.detail, Msgs.create)))
  {
  }

  /** Submitting the edit form: the PUT targets the product being edited. */
  function Update(s: Screen<CatalogProduct>, st: FormSubmit.FormState, v: CatalogForm.Values, text: string,
                  parse: string -> Option<Json>, res: ApiResult<()>): (f: Flows.Flow<CatalogProduct>)
    ensures f.sent.Some? <==> FormSubmit.Runs(st, CatalogForm.Valid(v)) && (AllWhitespace(text) || parse(text).Some?) && s.editing.Some?
    ensures f.sent.Some? ==>
      CatalogForm.Clean(v, text, parse).Clean?
      && f.sent.value == Api.Update("products-catalog", s.editing.value.id, CatalogForm.Clean(v, text, parse).payload)
  {
    var c := CatalogForm.Clean(v, text, parse);
    assert c.Clean? <==> AllWhitespace(text) || parse(text).Some?;
    Flows.SubmitUpdate(Cfg, s, st, CatalogForm.Valid(v), c, res, None)
  }

  /** Unparsable attributes stop the edit submit in the form, before any request. */
  lemma UpdateBadAttributes(s: Screen<CatalogProduct>, st: FormSubmit.FormState, v: CatalogForm.Values, text: string,
                            parse: string -> Option<Json>, res: ApiResult<()>)
    requires FormSubmit.Runs(st, CatalogForm.Valid(v)) && !AllWhitespace(text) && parse(text).None?
    ensures var f := Update(s, st, v, text, parse, res);
      f.sent.None? && f.screen == s && f.form.error == Some(CatalogForm.AttributesError) && !f.form.submitting
  {
  }

  /** After the PUT: success closes the dialog and reloads; failure keeps the screen. */
  lemma UpdateOutcome(s: Screen<CatalogProduct>, st: FormSubmit.FormState, v: CatalogForm.Values, text: string,
                      parse: string -> Option<Json>, res: ApiResult<()>)
    requires Update(s, st, v, text, parse, res).sent.Some?
    ensures var f := Update(s, st, v, text, parse, res);
      && (res.Ok? ==> f.screen.editing.None? && f.screen.loading && f.form == FormSubmit.Idle)
      && (res.Err? ==> f.screen == s && f.form.error == Some(ErrorMessage(res.detail, Msgs.update)))
  {
  }

  /** `handleDelete()`, run when the delete dialog confirms. */
  function ConfirmDelete(s: Screen<CatalogProduct>, res: ApiResult<()>): (h: Handled<CatalogProduct>)
    ensures h.screen.deleting.None? && h.screen.items == s.items
    ensures h.sent.Some? <==> s.deleting.Some?
    ensures h.sent.Some? ==> Api.SplitItemPath(h.sent.value.path) == Some(("products-catalog", s.deleting.value.id))
    ensures h.screen.error.Some? <==> !(s.deleting.Some? && res.Ok?)
    ensures s.deleting.Some? && res.Err? ==> h.screen.error == Some(ErrorMessage(res.detail, Msgs.delete))
  {
    HandleDelete(Cfg, s, res)
  }
}
