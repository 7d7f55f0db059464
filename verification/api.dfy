/** The request each resource client builds: HTTP method, path below the
    configured base URL, the query parameters sent, and the body.
    Arguments a caller leaves out (`undefined`) are `None` and take the
    client's default. */
module Api {
  import opened Wrappers
  import opened Payloads

  datatype Method = Get | Post | Put | Delete

  datatype Param = PInt(i: int) | PBool(b: bool) | PStr(s: string)

  /** The query parameter names the clients use. */
  datatype Key = Skip | Limit | ActiveOnly | Search | ManufacturerId | Country | BrandId | CategoryId {
    /** The name as it appears in the query string. */
    function Name(): string {
      match this
      case Skip => "skip"
      case Limit => "limit"
      case ActiveOnly => "active_only"
      case Search => "search"
      case ManufacturerId => "manufacturer_id"
      case Country => "country"
      case BrandId => "brand_id"
      case CategoryId => "category_id"
    }
  }

  /** Distinct keys are sent under distinct names, so a query string can be read back unambiguously. */
  lemma NameInjective(a: Key, b: Key)
    ensures a.Name() == b.Name() <==> a == b
  {
    if a != b {
      assert a.Name()[0] != b.Name()[0] || a.Name()[1] != b.Name()[1];
    }
  }

  /** The `params` object handed to axios: the value of each parameter that is sent.
      The server reads parameters by name, so their insertion order is not kept. */
  type Query = map<Key, Param>

  datatype Request = Request(verb: Method, path: string, query: Query, body: Option<Payload>)

  const NoQuery: Query := map[]

  /** JavaScript truthiness of an optional string argument (`null`, `undefined` and `""` are falsy). */
  predicate Truthy(s: Option<string>) {
    s.Some? && s.value != ""
  }

  /** The value sent for `key`, if any. */
  function Sent(q: Query, key: Key): Option<Param> {
    if key in q then Some(q[key]) else None
  }

  /** `if (cond) params[key] = value`: the parameter is appended only when `cond` holds,
      and every other parameter is left as it was. */
  function AddIf(q: Query, cond: bool, key: Key, value: Param): (r: Query)
    ensures Sent(r, key) == if cond then Some(value) else Sent(q, key)
    ensures forall k :: k != key ==> Sent(r, k) == Sent(q, k)
  {
    if cond then q[key := value] else q
  }

  /** `{ skip, limit }` with the defaults 0 and 100. */
  function Page(skip: Option<int>, limit: Option<int>): (r: Query)
    ensures r.Keys == {Skip, Limit}
    ensures Sent(r, Skip) == Some(PInt(skip.GetOr(0))) && Sent(r, Limit) == Some(PInt(limit.GetOr(100)))
  {
    map[Skip := PInt(skip.GetOr(0)), Limit := PInt(limit.GetOr(100))]
  }

  /** What `if (x) params[key] = x` sends for an optional string argument `x`. */
  function IfTruthy(x: Option<string>): Option<Param> {
    if Truthy(x) then Some(PStr(x.value)) else None
  }

  // ---- path builders shared by every resource ----

  function CollectionPath(resource: string): string {
    "/" + resource
  }

  function ItemPath(resource: string, id: string): string {
    "/" + resource + "/" + id
  }

  predicate SlashFree(s: string) {
    forall i :: 0 <= i < |s| ==> s[i] != '/'
  }

  /** Splits `/<resource>/<id>` at its second slash: the inverse of `ItemPath`. */
  function SplitItemPath(path: string): Option<(string, string)> {
    if |path| == 0 || path[0] != '/' then None
    else
      var rest := path[1..];
      var k := FirstSlash(rest);
      if k == |rest| then None else Some((rest[..k], rest[k + 1..]))
  }

  function FirstSlash(s: string): (k: nat)
    ensures k <= |s|
    ensures k < |s| ==> s[k] == '/'
    ensures forall i :: 0 <= i < k ==> s[i] != '/'
  {
    if s == [] then 0 else if s[0] == '/' then 0 else 1 + FirstSlash(s[1..])
  }

  /** A resource name without a slash can be read back from any item path built on it. */
  lemma ItemPathRoundTrip(resource: string, id: string)
    ensures SlashFree(resource) ==> SplitItemPath(ItemPath(resource, id)) == Some((resource, id))
  {
    if !SlashFree(resource) { return; }
    var path := ItemPath(resource, id);
    var rest := path[1..];
    assert rest == resource + "/" + id;
    FirstSlashAt(rest, |resource|);
    assert rest[..|resource|] == resource;
    assert rest[|resource| + 1..] == id;
  }

  lemma FirstSlashAt(s: string, k: nat)
    requires k < |s| && s[k] == '/'
    requires forall i :: 0 <= i < k ==> s[i] != '/'
    ensures FirstSlash(s) == k
  {
    if k > 0 {
      FirstSlashAt(s[1..], k - 1);
    }
  }

  /** `getById(id)`. */
  function GetById(resource: string, id: string): (r: Request)
    ensures r.verb == Get && r.query == NoQuery && r.body.None?
    ensures SlashFree(resource) ==> SplitItemPath(r.path) == Some((resource, id))
  {
    ItemPathRoundTrip(resource, id);
    Request(Get, ItemPath(resource, id), NoQuery, None)
  }

  /** `create(data)`: POST of the payload to the collection. */
  function Create(resource: string, data: Payload): (r: Request)
    ensures r.verb == Post && r.query == NoQuery && r.body == Some(data)
    ensures SlashFree(resource) ==> SplitItemPath(r.path).None?
  {
    SlashFreeHasNoItem(resource);
    Request(Post, CollectionPath(resource), NoQuery, Some(data))
  }

  lemma SlashFreeHasNoItem(resource: string)
    ensures SlashFree(resource) ==> SplitItemPath(CollectionPath(resource)).None?
  {
    var rest := CollectionPath(resource)[1..];
    assert rest == resource;
  }

  /** `update(id, data)`: PUT of the payload to the item. */
  function Update(resource: string, id: string, data: Payload): (r: Request)
    ensures r.verb == Put && r.query == NoQuery && r.body == Some(data)
    ensures SlashFree(resource) ==> SplitItemPath(r.path) == Some((resource, id))
  {
    ItemPathRoundTrip(resource, id);
    Request(Put, ItemPath(resource, id), NoQuery, Some(data))
  }

  /** `delete(id)`. */
  function Remove(resource: string, id: string): (r: Request)
    ensures r.verb == Delete && r.query == NoQuery && r.body.None?
    ensures SlashFree(resource) ==> SplitItemPath(r.path) == Some((resource, id))
  {
    ItemPathRoundTrip(resource, id);
    Request(Delete, ItemPath(resource, id), NoQuery, None)
  }

  // ---- list builders, one per resource client ----

  /** `categoriesAPI.getAll(skip, limit)`: exactly `{ skip, limit }`. */
  function CategoriesGetAll(skip: Option<int>, limit: Option<int>): (r: Request)
    ensures r.verb == Get && r.path == "/categories" && r.body.None?
    ensures r.query.Keys == {Skip, Limit}
    ensures Sent(r.query, Skip) == Some(PInt(skip.GetOr(0)))
    ensures Sent(r.query, Limit) == Some(PInt(limit.GetOr(100)))
  {
    Request(Get, "/categories", Page(skip, limit), None)
  }

  /** `categoriesAPI.getTree()`. */
  function CategoriesGetTree(): (r: Request)
    ensures r.verb == Get && r.path == "/categories/tree" && r.query == NoQuery && r.body.None?
  {
    Request(Get, "/categories/tree", NoQuery, None)
  }

  /** The `{ skip, limit }` object after the `active_only` and `search` checks
      shared by the brands, stores and catalog clients. */
  function ActiveAndSearch(skip: Option<int>, limit: Option<int>, activeOnly: Option<bool>, search: Option<string>): (r: Query)
    ensures Sent(r, ManufacturerId).None? && Sent(r, Country).None? && Sent(r, BrandId).None? && Sent(r, CategoryId).None?
    ensures Sent(r, Skip) == Some(PInt(skip.GetOr(0)))
    ensures Sent(r, Limit) == Some(PInt(limit.GetOr(100)))
    ensures Sent(r, ActiveOnly) == (if activeOnly.GetOr(false) then Some(PBool(true)) else None)
    ensures Sent(r, Search) == IfTruthy(search)
  {
    var p0 := Page(skip, limit);
    var p1 := AddIf(p0, activeOnly.GetOr(false), ActiveOnly, PBool(true));
    AddIf(p1, Truthy(search), Search, PStr(search.GetOr("")))
  }

  /** `brandsAPI.getAll(skip, limit, activeOnly, search, manufacturerId)`: `skip` and `limit` always,
      `active_only=true`, `search` and `manufacturer_id` only when truthy. */
  function BrandsGetAll(skip: Option<int>, limit: Option<int>, activeOnly: Option<bool>,
                        search: Option<string>, manufacturerId: Option<string>): (r: Request)
    ensures r.verb == Get && r.path == "/brands" && r.body.None?
    ensures Sent(r.query, Country).None? && Sent(r.query, BrandId).None? && Sent(r.query, CategoryId).None?
    ensures Sent(r.query, Skip) == Some(PInt(skip.GetOr(0)))
    ensures Sent(r.query, Limit) == Some(PInt(limit.GetOr(100)))
    ensures Sent(r.query, ActiveOnly) == (if activeOnly.GetOr(false) then Some(PBool(true)) else None)
    ensures Sent(r.query, Search) == IfTruthy(search)
    ensures Sent(r.query, ManufacturerId) == IfTruthy(manufacturerId)
  {
    var p := ActiveAndSearch(skip, limit, activeOnly, search);
    var q := AddIf(p, Truthy(manufacturerId), ManufacturerId, PStr(manufacturerId.GetOr("")));
    Request(Get, "/brands", q, None)
  }

  /** `brandsAPI.getWithManufacturer(skip, limit, activeOnly)`: `active_only` is always sent, even when false. */
  function BrandsGetWithManufacturer(skip: Option<int>, limit: Option<int>, activeOnly: Option<bool>): (r: Request)
    ensures r.verb == Get && r.path == "/brands/with-manufacturer" && r.body.None?
    ensures r.query.Keys == {Skip, Limit, ActiveOnly}
    ensures Sent(r.query, Skip) == Some(PInt(skip.GetOr(0)))
    ensures Sent(r.query, Limit) == Some(PInt(limit.GetOr(100)))
    ensures Sent(r.query, ActiveOnly) == Some(PBool(activeOnly.GetOr(false)))
  {
    var q := AddIf(Page(skip, limit), true, ActiveOnly, PBool(activeOnly.GetOr(false)));
    Request(Get, "/brands/with-manufacturer", q, None)
  }

  /** `manufacturersAPI.getAll(skip, limit, search, country)`: never `active_only`. */
  function ManufacturersGetAll(skip: Option<int>, limit: Option<int>, search: Option<string>, country: Option<string>): (r: Request)
    ensures r.verb == Get && r.path == "/manufacturers" && r.body.None?
    ensures Sent(r.query, ActiveOnly).None? && Sent(r.query, ManufacturerId).None? && Sent(r.query, BrandId).None? && Sent(r.query, CategoryId).None?
    ensures Sent(r.query, Skip) == Some(PInt(skip.GetOr(0)))
    ensures Sent(r.query, Limit) == Some(PInt(limit.GetOr(100)))
    ensures Sent(r.query, Search) == IfTruthy(search)
    ensures Sent(r.query, Country) == IfTruthy(country)
  {
    var p0 := Page(skip, limit);
    var p1 := AddIf(p0, Truthy(search), Search, PStr(search.GetOr("")));
    var p2 := AddIf(p1, Truthy(country), Country, PStr(country.GetOr("")));
    Request(Get, "/manufacturers", p2, None)
  }

  /** `manufacturersAPI.getWithBrands(skip, limit)`. */
  function ManufacturersGetWithBrands(skip: Option<int>, limit: Option<int>): (r: Request)
    ensures r.verb == Get && r.path == "/manufacturers/with-brands" && r.body.None?
    ensures r.query.Keys == {Skip, Limit}
    ensures Sent(r.query, Skip) == Some(PInt(skip.GetOr(0)))
    ensures Sent(r.query, Limit) == Some(PInt(limit.GetOr(100)))
  {
    Request(Get, "/manufacturers/with-brands", Page(skip, limit), None)
  }

  /** `storesAPI.getAll(skip, limit, activeOnly, search)`: only `active_only` and `search` are optional. */
  function StoresGetAll(skip: Option<int>, limit: Option<int>, activeOnly: Option<bool>, search: Option<string>): (r: Request)
    ensures r.verb == Get && r.path == "/stores" && r.body.None?
    ensures Sent(r.query, ManufacturerId).None? && Sent(r.query, Country).None? && Sent(r.query, BrandId).None? && Sent(r.query, CategoryId).None?
    ensures Sent(r.query, Skip) == Some(PInt(skip.GetOr(0)))
    ensures Sent(r.query, Limit) == Some(PInt(limit.GetOr(100)))
    ensures Sent(r.query, ActiveOnly) == (if activeOnly.GetOr(false) then Some(PBool(true)) else None)
    ensures Sent(r.query, Search) == IfTruthy(search)
  {
    Request(Get, "/stores", ActiveAndSearch(skip, limit, activeOnly, search), None)
  }

  /** `productsCatalogAPI.getAll(skip, limit, activeOnly, search, brandId, categoryId)`. */
  function ProductsCatalogGetAll(skip: Option<int>, limit: Option<int>, activeOnly: Option<bool>,
                                 search: Option<string>, brandId: Option<string>, categoryId: Option<string>): (r: Request)
    ensures r.verb == Get && r.path == "/products-catalog" && r.body.None?
    ensures Sent(r.query, ManufacturerId).None? && Sent(r.query, Country).None?
    ensures Sent(r.query, Skip) == Some(PInt(skip.GetOr(0)))
    ensures Sent(r.query, Limit) == Some(PInt(limit.GetOr(100)))
    ensures Sent(r.query, ActiveOnly) == (if activeOnly.GetOr(false) then Some(PBool(true)) else None)
    ensures Sent(r.query, Search) == IfTruthy(search)
    ensures Sent(r.query, BrandId) == IfTruthy(brandId)
    ensures Sent(r.query, CategoryId) == IfTruthy(categoryId)
  {
    var p2 := ActiveAndSearch(skip, limit, activeOnly, search);
    var p3 := AddIf(p2, Truthy(brandId), BrandId, PStr(brandId.GetOr("")));
    var p4 := AddIf(p3, Truthy(categoryId), CategoryId, PStr(categoryId.GetOr("")));
    Request(Get, "/products-catalog", p4, None)
  }

  /** `productsCatalogAPI.getWithDetails(skip, limit, activeOnly)`: `active_only` is always sent. */
  function ProductsCatalogGetWithDetails(skip: Option<int>, limit: Option<int>, activeOnly: Option<bool>): (r: Request)
    ensures r.verb == Get && r.path == "/products-catalog/with-details" && r.body.None?
    ensures r.query.Keys == {Skip, Limit, ActiveOnly}
    ensures Sent(r.query, Skip) == Some(PInt(skip.GetOr(0)))
    ensures Sent(r.query, Limit) == Some(PInt(limit.GetOr(100)))
    ensures Sent(r.query, ActiveOnly) == Some(PBool(activeOnly.GetOr(false)))
  {
    var q := AddIf(Page(skip, limit), true, ActiveOnly, PBool(activeOnly.GetOr(false)));
    Request(Get, "/products-catalog/with-details", q, None)
  }

  /** `productsAPI.getAll()`: the scraped offers, with no parameters at all. */
  function ProductsGetAll(): (r: Request)
    ensures r.verb == Get && r.path == "/products" && r.query == NoQuery && r.body.None?
  {
    Request(Get, "/products", NoQuery, None)
  }
}
