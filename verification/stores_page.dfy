/** The stores screen: rows from `/stores`, searched by name and base URL, and a
    delete dialog that never blocks. */
module StoresPage {
  import opened Wrappers
  import opened Text
  import opened Entities
  import opened Search
  import opened Screens
  import opened DeleteDialogs
  import Flows
  import FormSubmit
  import StoreForm
  import Api

  const Msgs := Messages("Error al cargar las tiendas", "Error al crear la tienda",
                         "Error al actualizar la tienda", "Error al eliminar la tienda")

  const Cfg: Config<Store> := Config("stores", (s: Store) => s.id, Msgs)

  function SearchFields(x: Store): seq<Option<string>> {
    [Some(x.name), x.base_url]
  }

  datatype Loaded = Loaded(request: Api.Request, screen: Screen<Store>)

  /** `loadStores()`: every store, active or not, with no search sent to the backend. */
  function LoadStores(s: Screen<Store>, res: ApiResult<seq<Store>>): (r: Loaded)
    ensures r.request.path == "/stores"
    ensures Api.Sent(r.request.query, Api.ActiveOnly).None? && Api.Sent(r.request.query, Api.Search).None?
    ensures !r.screen.loading && (r.screen.error.Some? <==> res.Err?)
    ensures res.Ok? ==> r.screen.items == res.data
    ensures res.Err? ==> r.screen.items == s.items && r.screen.error == Some(ErrorMessage(res.detail, Msgs.load))
  {
    Loaded(Api.StoresGetAll(None, None, None, None), Load(s, res, Msgs.load))
  }

  /** The rows shown: a store is listed when the search occurs, ignoring ASCII case, in its
      name or in its base URL. */
  function Rows(s: Screen<Store>): (r: seq<Store>)
    ensures |r| <= |s.items|
    ensures forall x :: x in r <==>
      (x in s.items
       && (Includes(Lower(x.name), Lower(s.search))
           || (x.base_url.Some? && Includes(Lower(x.base_url.value), Lower(s.search)))))
  {
    var r := Visible(s, SearchFields);
    forall x ensures AnyFieldMatches(SearchFields(x), s.search)
        <==> FieldMatches(Some(x.name), s.search) || FieldMatches(x.base_url, s.search) {
      assert SearchFields(x)[0] == Some(x.name);
      assert SearchFields(x)[1] == x.base_url;
    }
    r
  }

  /** With an empty search box every store is listed, in the order loaded. */
  lemma EmptySearchListsAll(s: Screen<Store>)
    requires s.search == ""
    ensures Rows(s) == s.items
  {
    EmptyTermKeepsIff(s.items, SearchFields);
    forall i | 0 <= i < |s.items| ensures HasPresentField(SearchFields(s.items[i])) {
      assert SearchFields(s.items[i])[0].Some?;
    }
  }

  /** Submitting the create form: the form values are posted as they are. */
  function Create(s: Screen<Store>, st: FormSubmit.FormState, v: StoreForm.Values, res: ApiResult<()>): (f: Flows.Flow<Store>)
    ensures f.sent.Some? <==> FormSubmit.Runs(st, StoreForm.Valid(v))
    ensures f.sent.Some? ==> f.sent.value == Api.Create("stores", StoreForm.Payload(v))
    ensures f.sent.Some? && res.Ok? ==> !f.screen.createOpen && f.screen.loading && f.form == FormSubmit.Idle
    ensures f.sent.Some? && res.Err? ==> f.screen == s && f.form.error == Some(ErrorMessage(res.detail, Msgs.create))
  {
    Flows.SubmitCreate(Cfg, s, st, StoreForm.Valid(v), FormSubmit.Clean(StoreForm.Payload(v)), res, None)
  }

  /** Submitting the edit form. */
  function Update(s: Screen<Store>, st: FormSubmit.FormState, v: StoreForm.Values, res: ApiResult<()>): (f: Flows.Flow<Store>)
    ensures f.sent.Some? <==> FormSubmit.Runs(st, StoreForm.Valid(v)) && s.editing.Some?
    ensures f.sent.Some? ==> f.sent.value == Api.Update("stores", s.editing.value.id, StoreForm.Payload(v))
    ensures f.sent.Some? && res.Ok? ==> f.screen.editing.None? && f.screen.loading && f.form == FormSubmit.Idle
    ensures f.sent.Some? && res.Err? ==> f.screen == s && f.form.error == Some(ErrorMessage(res.detail, Msgs.update))
  {
    Flows.SubmitUpdate(Cfg, s, st, StoreForm.Valid(v), FormSubmit.Clean(StoreForm.Payload(v)), res, None)
  }

  /** A store without a base URL cannot be saved from the edit form untouched: the URL is required. */
  lemma EditWithoutUrlBlocked(s: Screen<Store>, res: ApiResult<()>)
    requires s.editing.Some? && (s.editing.value.base_url.None? || s.editing.value.base_url == Some(""))
    ensures Update(s, FormSubmit.Idle, StoreForm.Defaults(s.editing), res).sent.None?
  {
  }

  function Render(d: Option<Store>): View {
    StoreDialog(d, d.Some?)
  }

  /** One press on the delete dialog: confirm always sends the DELETE of the store shown. */
  function PressDelete(s: Screen<Store>, p: Press, res: ApiResult<()>): (h: Handled<Store>)
    ensures h.sent.Some? <==> s.deleting.Some? && p == ConfirmButton
    ensures h.sent.Some? ==> h.sent.value == Api.Remove("stores", s.deleting.value.id)
    ensures h.sent.None? && s.deleting.Some? ==> h.screen == s.(deleting := None)
  {
    Flows.DeleteStep(Cfg, Render, s, p, res)
  }

  /** Confirming is never blocked: the first confirm deletes, and nothing after it deletes again. */
  lemma ConfirmDeletesOnce(s: Screen<Store>, res: ApiResult<()>, later: seq<(Press, ApiResult<()>)>)
    requires s.deleting.Some?
    ensures Flows.DeleteRun(Cfg, Render, s, [(ConfirmButton, res)] + later).sent == [Api.Remove("stores", s.deleting.value.id)]
  {
    var steps := [(ConfirmButton, res)] + later;
    assert steps[1..] == later;
    var h := Flows.DeleteStep(Cfg, Render, s, ConfirmButton, res);
    Flows.BlockedNeverSends(Cfg, Render, h.screen, later);
  }
}
