/** The state every list screen keeps and the handlers it runs on it. Each screen
    (catalog products, brands, categories, stores, manufacturers, scraped offers)
    is an instance: it supplies its resource name, how to read an item's id, its
    fallback messages and its searchable fields.

    A handler is one atomic step. The outcome of the backend call is an input. A
    handler that triggers a reload on success runs the synchronous start of the
    load (loading on, error cleared) in the same step; the reload's completion is
    a separate `LoadFinish` step. */
module Screens {
  import opened Wrappers
  import opened Payloads
  import opened Search
  import Api

  /** What a backend call produced: its data, or a rejection whose response may carry a `detail`. */
  datatype ApiResult<D> = Ok(data: D) | Err(detail: Option<string>)

  /** `err.response?.data?.detail || fallback`: an absent or empty detail gives the fallback. */
  function ErrorMessage(detail: Option<string>, fallback: string): string {
    if detail.Some? && detail.value != "" then detail.value else fallback
  }

  /** The message is the backend's detail exactly when that detail is a non-empty string,
      and it is never empty when the fallback is not. */
  lemma ErrorMessageSource(detail: Option<string>, fallback: string)
    ensures ErrorMessage(detail, fallback) == fallback || ErrorMessage(detail, fallback) == detail.value
    ensures fallback != "" ==> ErrorMessage(detail, fallback) != ""
    ensures ErrorMessage(detail, fallback) != fallback ==> detail == Some(ErrorMessage(detail, fallback))
  {
  }

  /** The fixed messages a screen falls back to. */
  datatype Messages = Messages(load: string, create: string, update: string, delete: string)

  /** The screen's configuration: the API resource, how an item's id is read, and its messages. */
  datatype Config<!T> = Config(resource: string, idOf: T -> string, messages: Messages)

  /** The React state of a list screen. */
  datatype Screen<T> = Screen(
    items: seq<T>,
    loading: bool,
    error: Option<string>,
    search: string,
    createOpen: bool,
    editing: Option<T>,
    deleting: Option<T>)

  /** The state before the mount effect runs. */
  function Initial<T>(): Screen<T> {
    Screen([], false, None, "", false, None, None)
  }

  /** The synchronous start of a load: `setLoading(true); setError(null)`. */
  function LoadStart<T>(s: Screen<T>): (r: Screen<T>)
    ensures r.loading && r.error.None?
    ensures r.items == s.items && r.search == s.search && r.createOpen == s.createOpen
    ensures r.editing == s.editing && r.deleting == s.deleting
  {
    s.(loading := true, error := None)
  }

  /** The rest of a load once the list request settles: on success the items are replaced,
      on failure the error is set and the items are kept; loading ends in both. */
  function LoadFinish<T>(s: Screen<T>, res: ApiResult<seq<T>>, fallback: string): (r: Screen<T>)
    ensures !r.loading
    ensures res.Ok? ==> r.items == res.data && r.error == s.error
    ensures res.Err? ==> r.items == s.items && r.error == Some(ErrorMessage(res.detail, fallback))
    ensures r.search == s.search && r.createOpen == s.createOpen
    ensures r.editing == s.editing && r.deleting == s.deleting
  {
    match res
    case Ok(data) => s.(items := data, loading := false)
    case Err(detail) => s.(error := Some(ErrorMessage(detail, fallback)), loading := false)
  }

  /** A whole load: the error is cleared first, so it is set afterwards exactly when the load failed. */
  function Load<T>(s: Screen<T>, res: ApiResult<seq<T>>, fallback: string): (r: Screen<T>)
    ensures !r.loading
    ensures r.error.Some? <==> res.Err?
    ensures res.Ok? ==> r.items == res.data
    ensures res.Err? ==> r.items == s.items && r.error == Some(ErrorMessage(res.detail, fallback))
    ensures r.search == s.search && r.createOpen == s.createOpen
    ensures r.editing == s.editing && r.deleting == s.deleting
  {
    LoadFinish(LoadStart(s), res, fallback)
  }

  /** A successful load forgets what was shown before: two screens that differ only in their
      items, error and loading flag agree after loading the same data. */
  lemma SuccessfulLoadForgetsPast<T>(s1: Screen<T>, s2: Screen<T>, data: seq<T>, fallback: string)
    requires s1.search == s2.search && s1.createOpen == s2.createOpen
    requires s1.editing == s2.editing && s1.deleting == s2.deleting
    ensures Load(s1, Ok(data), fallback) == Load(s2, Ok(data), fallback)
  {
  }

  /** A failed load is idempotent: repeating it leaves the screen as the first failure did. */
  lemma FailedLoadIdempotent<T>(s: Screen<T>, detail: Option<string>, fallback: string)
    ensures Load(Load(s, Err(detail), fallback), Err(detail), fallback) == Load(s, Err(detail), fallback)
  {
  }

  /** What a create, update or delete handler did: the screen afterwards, the request it
      sent (none when it failed before reaching the API), and the message of the `Error`
      it threw back to the form, if any. */
  datatype Handled<T> = Handled(screen: Screen<T>, sent: Option<Api.Request>, thrown: Option<string>)

  /** `handleCreate(data)`: on success the create dialog closes and a reload starts; on
      failure an `Error` carrying the detail or the fallback is thrown and the screen is untouched. */
  function HandleCreate<T>(cfg: Config<T>, s: Screen<T>, data: Payload, res: ApiResult<()>): (h: Handled<T>)
    ensures h.sent == Some(Api.Create(cfg.resource, data))
    ensures h.thrown.Some? <==> res.Err?
    ensures res.Ok? ==> h.screen == LoadStart(s).(createOpen := false)
    ensures res.Err? ==> h.screen == s && h.thrown == Some(ErrorMessage(res.detail, cfg.messages.create))
  {
    match res
    case Ok(_) => Handled(LoadStart(s.(createOpen := false)), Some(Api.Create(cfg.resource, data)), None)
    case Err(detail) => Handled(s, Some(Api.Create(cfg.resource, data)), Some(ErrorMessage(detail, cfg.messages.create)))
  }

  /** `handleUpdate(data)`: the PUT targets the item being edited, which is cleared only on
      success; with no item being edited, reading its id fails before any request and the
      fallback is thrown. */
  function HandleUpdate<T>(cfg: Config<T>, s: Screen<T>, data: Payload, res: ApiResult<()>): (h: Handled<T>)
    ensures h.sent.Some? <==> s.editing.Some?
    ensures s.editing.Some? ==> h.sent == Some(Api.Update(cfg.resource, cfg.idOf(s.editing.value), data))
    ensures h.thrown.None? <==> s.editing.Some? && res.Ok?
    ensures h.thrown.None? ==> h.screen == LoadStart(s).(editing := None)
    ensures h.thrown.Some? ==> h.screen == s
    ensures s.editing.None? ==> h.thrown == Some(cfg.messages.update)
    ensures s.editing.Some? && res.Err? ==> h.thrown == Some(ErrorMessage(res.detail, cfg.messages.update))
  {
    match s.editing
    case None => Handled(s, None, Some(cfg.messages.update))
    case Some(item) =>
      var req := Api.Update(cfg.resource, cfg.idOf(item), data);
      match res
      case Ok(_) => Handled(LoadStart(s.(editing := None)), Some(req), None)
      case Err(detail) => Handled(s, Some(req), Some(ErrorMessage(detail, cfg.messages.update)))
  }

  /** `handleDelete()`: the item awaiting confirmation is cleared whatever happens; the screen
      error is set exactly when the deletion did not succeed, and a success starts a reload.
      Nothing is thrown and the items are never touched by the handler itself. */
  function HandleDelete<T>(cfg: Config<T>, s: Screen<T>, res: ApiResult<()>): (h: Handled<T>)
    ensures h.screen.deleting.None?
    ensures h.thrown.None?
    ensures h.screen.items == s.items && h.screen.editing == s.editing && h.screen.createOpen == s.createOpen
    ensures h.sent.Some? <==> s.deleting.Some?
    ensures s.deleting.Some? ==> h.sent == Some(Api.Remove(cfg.resource, cfg.idOf(s.deleting.value)))
    ensures h.screen.error.Some? <==> !(s.deleting.Some? && res.Ok?)
    ensures s.deleting.Some? && res.Err? ==> h.screen.error == Some(ErrorMessage(res.detail, cfg.messages.delete))
    ensures s.deleting.None? ==> h.screen.error == Some(cfg.messages.delete)
    ensures h.screen.loading <==> s.loading || (s.deleting.Some? && res.Ok?)
  {
    match s.deleting
    case None => Handled(s.(error := Some(cfg.messages.delete), deleting := None), None, None)
    case Some(item) =>
      var req := Api.Remove(cfg.resource, cfg.idOf(item));
      match res
      case Ok(_) => Handled(LoadStart(s.(deleting := None)), Some(req), None)
      case Err(detail) => Handled(s.(error := Some(ErrorMessage(detail, cfg.messages.delete)), deleting := None), Some(req), None)
  }

  /** A successful create followed by a successful reload shows exactly the reloaded list,
      with the dialog closed and no error. */
  lemma CreateThenReload<T>(cfg: Config<T>, s: Screen<T>, data: Payload, reloaded: seq<T>)
    ensures var r := LoadFinish(HandleCreate(cfg, s, data, Ok(())).screen, Ok(reloaded), cfg.messages.load);
      r.items == reloaded && !r.createOpen && r.error.None? && !r.loading
      && r == Load(s.(createOpen := false), Ok(reloaded), cfg.messages.load)
  {
  }

  /** A failed update leaves the form able to retry: the same item is still being edited,
      and the retry sends the same request. */
  lemma FailedUpdateRetries<T>(cfg: Config<T>, s: Screen<T>, data: Payload, detail: Option<string>, res: ApiResult<()>)
    requires s.editing.Some?
    ensures var h := HandleUpdate(cfg, s, data, Err(detail));
      h.screen.editing == s.editing && HandleUpdate(cfg, h.screen, data, res).sent == h.sent
  {
  }

  /** The interactions that only move dialogs and the search box. */
  datatype Event<T> =
    | SetSearch(term: string)
    | OpenCreate
    | CloseCreate
    | StartEdit(item: T)
    | CloseEdit
    | StartDelete(item: T)
    | CloseDelete

  /** The state setters wired to the inputs, buttons and dialogs. */
  function Dispatch<T>(s: Screen<T>, e: Event<T>): (r: Screen<T>)
    ensures r.items == s.items && r.loading == s.loading && r.error == s.error
    ensures r.search == if e.SetSearch? then e.term else s.search
    ensures r.createOpen == if e.OpenCreate? then true else if e.CloseCreate? then false else s.createOpen
    ensures r.editing == if e.StartEdit? then Some(e.item) else if e.CloseEdit? then None else s.editing
    ensures r.deleting == if e.StartDelete? then Some(e.item) else if e.CloseDelete? then None else s.deleting
  {
    match e
    case SetSearch(term) => s.(search := term)
    case OpenCreate => s.(createOpen := true)
    case CloseCreate => s.(createOpen := false)
    case StartEdit(item) => s.(editing := Some(item))
    case CloseEdit => s.(editing := None)
    case StartDelete(item) => s.(deleting := Some(item))
    case CloseDelete => s.(deleting := None)
  }

  /** The rows the table shows: the items passing the screen's search. */
  function Visible<T(!new)>(s: Screen<T>, fields: T -> seq<Option<string>>): (r: seq<T>)
    ensures forall x :: x in r <==> x in s.items && AnyFieldMatches(fields(x), s.search)
  {
    Filter(s.items, fields, s.search)
  }

  /** Moving dialogs never changes which rows are shown; only the search box does. */
  lemma DialogsKeepRows<T(!new)>(s: Screen<T>, e: Event<T>, fields: T -> seq<Option<string>>)
    requires !e.SetSearch?
    ensures Visible(Dispatch(s, e), fields) == Visible(s, fields)
  {
  }
}
