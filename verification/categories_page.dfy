/** The categories screen: rows from `/categories`, searched by name and description,
    the parent column, the parent options given to the forms, and a delete dialog that
    never blocks. */
module CategoriesPage {
  import opened Wrappers
  import opened Text
  import opened Entities
  import opened Search
  import opened Screens
  import opened DeleteDialogs
  import Flows
  import FormSubmit
  import CategoryForm
  import Api

  const Msgs := Messages("Error al cargar las categorías", "Error al crear la categoría",
                         "Error al actualizar la categoría", "Error al eliminar la categoría")

  const Cfg: Config<Category> := Config("categories", (c: Category) => c.id, Msgs)

  function SearchFields(c: Category): seq<Option<string>> {
    [Some(c.name), c.description]
  }

  datatype Loaded = Loaded(request: Api.Request, screen: Screen<Category>)

  /** `loadCategories()`: the first page of categories, `{skip: 0, limit: 100}`. */
  function LoadCategories(s: Screen<Category>, res: ApiResult<seq<Category>>): (r: Loaded)
    ensures r.request.path == "/categories"
    ensures r.request.query == map[Api.Skip := Api.PInt(0), Api.Limit := Api.PInt(100)]
    ensures !r.screen.loading && (r.screen.error.Some? <==> res.Err?)
    ensures res.Ok? ==> r.screen.items == res.data
    ensures res.Err? ==> r.screen.items == s.items && r.screen.error == Some(ErrorMessage(res.detail, Msgs.load))
  {
    var req := Api.CategoriesGetAll(None, None);
    assert req.query == map[Api.Skip := Api.PInt(0), Api.Limit := Api.PInt(100)] by {
      assert Api.Sent(req.query, Api.Skip) == Some(Api.PInt(0));
      assert Api.Sent(req.query, Api.Limit) == Some(Api.PInt(100));
    }
    Loaded(req, Load(s, res, Msgs.load))
  }

  /** The rows shown: a category is listed when the search occurs, ignoring ASCII case, in
      its name or in its description. */
  function Rows(s: Screen<Category>): (r: seq<Category>)
    ensures |r| <= |s.items|
    ensures forall c :: c in r <==>
      (c in s.items
       && (Includes(Lower(c.name), Lower(s.search))
           || (c.description.Some? && Includes(Lower(c.description.value), Lower(s.search)))))
  {
    var r := Visible(s, SearchFields);
    forall c ensures AnyFieldMatches(SearchFields(c), s.search)
        <==> FieldMatches(Some(c.name), s.search) || FieldMatches(c.description, s.search) {
      assert SearchFields(c)[0] == Some(c.name);
      assert SearchFields(c)[1] == c.description;
    }
    r
  }

  /** With an empty search box every category is listed, in the order loaded. */
  lemma EmptySearchListsAll(s: Screen<Category>)
    requires s.search == ""
    ensures Rows(s) == s.items
  {
    EmptyTermKeepsIff(s.items, SearchFields);
    forall i | 0 <= i < |s.items| ensures HasPresentField(SearchFields(s.items[i])) {
      assert SearchFields(s.items[i])[0].Some?;
    }
  }

  /** `categories.find(cat => cat.id === id)` as a position: the first category with that
      id, or the length of the list when there is none. */
  function FindIndex(cats: seq<Category>, id: string): (i: nat)
    ensures i <= |cats|
    ensures i < |cats| ==> cats[i].id == id
    ensures forall j :: 0 <= j < i ==> cats[j].id != id
  {
    if cats == [] then 0
    else if cats[0].id == id then 0
    else 1 + FindIndex(cats[1..], id)
  }

  /** `getParentName(parentId)`: '-' without a parent; otherwise the name of the first
      category with that id, or 'N/A' when there is none or its name is empty. */
  function ParentName(cats: seq<Category>, parentId: Option<string>): (name: string)
    ensures !Api.Truthy(parentId) ==> name == "-"
    ensures Api.Truthy(parentId) && (forall c :: c in cats ==> c.id != parentId.value) ==> name == "N/A"
    ensures Api.Truthy(parentId) && name != "N/A" ==>
      exists i :: 0 <= i < |cats| && cats[i].id == parentId.value && cats[i].name == name
        && forall j :: 0 <= j < i ==> cats[j].id != parentId.value
    ensures Api.Truthy(parentId) ==> name != ""
    ensures forall i ::
      (&& 0 <= i < |cats| && Api.Truthy(parentId) && cats[i].id == parentId.value
       && (forall j :: 0 <= j < i ==> cats[j].id != parentId.value))
      ==> name == (if cats[i].name != "" then cats[i].name else "N/A")
  {
    if !Api.Truthy(parentId) then "-"
    else
      var i := FindIndex(cats, parentId.value);
      if i < |cats| && cats[i].name != "" then cats[i].name else "N/A"
  }

  /** When ids are unique, the parent column shows the parent's name whenever it is present
      and not empty. */
  lemma ParentNameOfListedParent(cats: seq<Category>, parent: Category)
    requires parent in cats && parent.id != "" && parent.name != ""
    requires forall c :: c in cats && c.id == parent.id ==> c == parent
    ensures ParentName(cats, Some(parent.id)) == parent.name
  {
    var i := FindIndex(cats, parent.id);
    assert i < |cats| by {
      var k :| 0 <= k < |cats| && cats[k] == parent;
    }
  }

  /** The parent options of the edit form: every loaded category except the one being edited
      (the create form is given the loaded list as it is). */
  function EditOptions(cats: seq<Category>, editing: Category): (r: seq<Category>)
    ensures |r| <= |cats|
    ensures forall c :: c in r <==> c in cats && c.id != editing.id
  {
    if cats == [] then []
    else
      var rest := EditOptions(cats[1..], editing);
      assert forall c :: c in cats <==> c == cats[0] || c in cats[1..];
      if cats[0].id != editing.id then [cats[0]] + rest else rest
  }

  /** Only the edited category itself is excluded: its own children remain offered as its
      parent, so the form can send a parent that closes a cycle. */
  lemma ChildOfferedAsParent(cats: seq<Category>, editing: Category, child: Category)
    requires child in cats && child.parent_id == Some(editing.id) && child.id != editing.id
    ensures child in EditOptions(cats, editing)
    ensures child !in EditOptions(cats, child)
  {
  }

  /** Submitting the create form: the schema decides, then the cleaned values are posted.
      The handler's message is never empty, so the form's own fallback never shows. */
  function Create(s: Screen<Category>, st: FormSubmit.FormState, v: CategoryForm.Values, res: ApiResult<()>): (f: Flows.Flow<Category>)
    ensures f.sent.Some? <==> FormSubmit.Runs(st, CategoryForm.Schema(v))
    ensures f.sent.Some? ==> f.sent.value == Api.Create("categories", CategoryForm.Payload(v))
    ensures f.sent.Some? && res.Ok? ==> !f.screen.createOpen && f.screen.loading && f.form == FormSubmit.Idle
    ensures f.sent.Some? && res.Err? ==> f.screen == s && f.form.error == Some(ErrorMessage(res.detail, Msgs.create))
  {
    Flows.SubmitCreate(Cfg, s, st, CategoryForm.Schema(v), FormSubmit.Clean(CategoryForm.Payload(v)), res, Some(CategoryForm.SaveError))
  }

  /** Submitting the edit form. */
  function Update(s: Screen<Category>, st: FormSubmit.FormState, v: CategoryForm.Values, res: ApiResult<()>): (f: Flows.Flow<Category>)
    ensures f.sent.Some? <==> FormSubmit.Runs(st, CategoryForm.Schema(v)) && s.editing.Some?
    ensures f.sent.Some? ==> f.sent.value == Api.Update("categories", s.editing.value.id, CategoryForm.Payload(v))
    ensures f.sent.Some? && res.Ok? ==> f.screen.editing.None? && f.screen.loading && f.form == FormSubmit.Idle
    ensures f.sent.Some? && res.Err? ==> f.screen == s && f.form.error == Some(ErrorMessage(res.detail, Msgs.update))
  {
    Flows.SubmitUpdate(Cfg, s, st, CategoryForm.Schema(v), FormSubmit.Clean(CategoryForm.Payload(v)), res, Some(CategoryForm.SaveError))
  }

  /** The dialog as the screen renders it: it is given only the category awaiting deletion. */
  function Render(d: Option<Category>): View {
    CategoryDialog(d)
  }

  /** One press on the delete dialog: confirm always sends the DELETE of the category shown. */
  function PressDelete(s: Screen<Category>, p: Press, res: ApiResult<()>): (h: Handled<Category>)
    ensures h.sent.Some? <==> s.deleting.Some? && p == ConfirmButton
    ensures h.sent.Some? ==> h.sent.value == Api.Remove("categories", s.deleting.value.id)
    ensures h.sent.None? && s.deleting.Some? ==> h.screen == s.(deleting := None)
  {
    Flows.DeleteStep(Cfg, Render, s, p, res)
  }

  /** Whatever is pressed, at most one category is deleted per dialog. */
  lemma DeletesAtMostOne(s: Screen<Category>, steps: seq<(Press, ApiResult<()>)>)
    ensures |Flows.DeleteRun(Cfg, Render, s, steps).sent| <= 1
  {
    Flows.AtMostOneDeletion(Cfg, Render, s, steps);
  }
}
