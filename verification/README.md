# simplify-admin console core, in Dafny

simplify-admin is a React single-page console for a price-comparison catalog. Its screens
list catalog products, brands, categories, stores, manufacturers and scraped price offers,
all fetched from a REST backend. They filter rows on the client with a free-text search
and open create, edit and delete dialogs.

This project models the logic of that console:

- the query each API client method builds;
- the client-side search each screen applies;
- the grouping of scraped offers by catalog product, with `Object.values` ordering;
- the payload cleaners and field rules of the five forms;
- the gates of the delete-confirmation dialogs;
- the handler transitions of each screen: load, create, update and delete, and how a
  form's submit reaches them.

Rendering is not modelled. Each handler is one atomic step. The backend's answer is an
input (`Screens.ApiResult`), as are `JSON.parse` and `JSON.stringify`, which are
function parameters.

Modules:

- `Wrappers`, `Text`, `Payloads` and `Entities` are shared vocabulary.
- `Text` holds the JavaScript string operations the console relies on: ASCII
  `toLowerCase`, `includes` and ECMAScript `trim`.
- `Api` models `src/lib/api.js`.
- `Search` and `Screens` hold the state and handlers every list screen shares.
- `FormSubmit` is the submit cycle every form shares.
- `DeleteDialogs` holds the four confirmation dialogs.
- `Flows` wires forms and dialogs to the screen handlers.
- `Grouping` is the offers reducer and `Object.values`.
- There is one module per form and one per screen:
  - forms: `BrandForm`, `CategoryForm`, `ManufacturerForm`, `StoreForm`, `CatalogForm`;
  - screens: `BrandsPage`, `CategoriesPage`, `StoresPage`, `ManufacturersPage`,
    `CatalogPage`, `ProductsPage`.

## Model

| member | source | states |
|---|---|---|
| Api.NameInjective | src/lib/api.js:57-60 | distinct query keys are sent under distinct parameter names, and equal names mean the same key |
| Api.AddIf | src/lib/api.js:58-60 | a conditional `params.x = v` sets that one parameter when the condition holds and leaves every other parameter as it was |
| Api.Page | src/lib/api.js:15-18 | the page object has exactly `skip` and `limit`, defaulting to 0 and 100 when the caller omits them |
| Api.ItemPathRoundTrip | src/lib/api.js:41-44 | for a resource name without a slash, the resource and the id can be read back from the item path `/<resource>/<id>` |
| Api.GetById | src/lib/api.js:29-32 | a GET with no query and no body whose path names that resource and that id |
| Api.Create | src/lib/api.js:35-38 | a POST of exactly the given payload to the collection path, which is not an item path |
| Api.Update | src/lib/api.js:41-44 | a PUT of exactly the given payload to the item path of that id |
| Api.Remove | src/lib/api.js:47-50 | a DELETE with no body to the item path of that id |
| Api.CategoriesGetAll | src/lib/api.js:15-20 | GET `/categories` whose query is exactly `skip` and `limit`, with their defaults |
| Api.CategoriesGetTree | src/lib/api.js:23-26 | GET `/categories/tree` with no query |
| Api.ActiveAndSearch | src/lib/api.js:147-150 | `active_only=true` is sent only when asked for, `search` only when truthy, and no filter of another client ever appears |
| Api.BrandsGetAll | src/lib/api.js:56-64 | GET `/brands`; `skip` and `limit` always; `active_only` only when true; `search` and `manufacturer_id` only when truthy |
| Api.BrandsGetWithManufacturer | src/lib/api.js:67-72 | GET `/brands/with-manufacturer` whose query is exactly `skip`, `limit` and `active_only`, the last sent even when false |
| Api.ManufacturersGetAll | src/lib/api.js:102-109 | GET `/manufacturers`, never with `active_only`; `search` and `country` only when truthy |
| Api.ManufacturersGetWithBrands | src/lib/api.js:112-117 | GET `/manufacturers/with-brands` with exactly `skip` and `limit` |
| Api.StoresGetAll | src/lib/api.js:147-154 | GET `/stores`; `active_only` only when true and `search` only when truthy; no other filter |
| Api.ProductsCatalogGetAll | src/lib/api.js:184-193 | GET `/products-catalog`; the brand and category filters are sent only when truthy; no manufacturer or country filter |
| Api.ProductsCatalogGetWithDetails | src/lib/api.js:196-201 | GET `/products-catalog/with-details` with exactly `skip`, `limit` and an always-present `active_only` |
| Api.ProductsGetAll | src/lib/api.js:231-234 | GET `/products` with no query parameters at all |
| Text.Lower | src/pages/Brands.jsx:72 | lower-casing keeps the length and maps each character through the ASCII lower-case mapping |
| Text.LowerIdempotent | src/pages/Brands.jsx:72-73 | lower-casing leaves no capital letter, so lower-casing twice is lower-casing once |
| Text.Includes | src/pages/Brands.jsx:72 | `includes` holds exactly when some offset of the text starts a copy of the term |
| Text.IncludesEmpty | src/pages/Brands.jsx:71-74 | the empty term is found in every text, so an empty search box matches every present field |
| Text.Trim | src/components/manufacturers/ManufacturerForm.jsx:35-36 | the trimmed text is a slice of the original that has only whitespace around it, starts and ends with non-whitespace, and is empty exactly when the original is all whitespace |
| Text.TrimEmptyIffBlank | src/components/manufacturers/ManufacturerForm.jsx:35 | `trim() !== ''` exactly when the text is not all whitespace |
| Text.TrimIdempotent | src/components/manufacturers/ManufacturerForm.jsx:35-36 | trimming a trimmed text changes nothing |
| Search.AnyFieldMatches | src/pages/Manufacturers.jsx:59-63 | the or-chain over the fields holds exactly when some searchable field is present and contains the term, ignoring ASCII case |
| Search.EmptyTermMatchesPresent | src/pages/Products.jsx:46-50 | with an empty term an item matches exactly when at least one of its searchable fields is present |
| Search.Filter | src/pages/Stores.jsx:59-62 | the rows kept are exactly the loaded items that match, and there are no more of them than items |
| Search.FilterAppend | src/pages/Stores.jsx:59-62 | filtering keeps relative order: it distributes over concatenation |
| Search.FilterIdempotent | src/pages/Stores.jsx:59-62 | filtering the shown rows again with the same term changes nothing |
| Search.FilterIdentityIff | src/pages/Stores.jsx:59-62 | the filter keeps the whole list exactly when every item matches |
| Search.EmptyTermKeepsIff | src/pages/Products.jsx:46-50 | with an empty term the whole list is shown exactly when every item has a present searchable field |
| Screens.ErrorMessageSource | src/pages/Brands.jsx:48 | the message shown is the backend's detail exactly when that detail is a non-empty string, else the fixed message, so it is never empty when the fixed message is not |
| Screens.LoadStart | src/pages/Brands.jsx:41-43 | a load starts with loading on and the error cleared, and touches nothing else |
| Screens.LoadFinish | src/pages/Brands.jsx:44-52 | on success the items are replaced; on failure they are kept and the error is set; loading ends either way |
| Screens.Load | src/pages/Brands.jsx:41-53 | after a whole load the error is set exactly when the load failed; success shows the fetched items and failure keeps the old ones |
| Screens.SuccessfulLoadForgetsPast | src/pages/Brands.jsx:44-46 | two screens that differ only in items, error and loading flag agree after loading the same data |
| Screens.FailedLoadIdempotent | src/pages/Brands.jsx:47-51 | repeating a failed load leaves the screen as the first failure did |
| Screens.HandleCreate | src/pages/Brands.jsx:77-85 | the POST is always sent; success closes the create dialog and starts a reload; failure throws the detail or the fixed message and leaves the screen alone |
| Screens.HandleUpdate | src/pages/Brands.jsx:88-96 | a PUT is sent exactly when an item is being edited, to that item; only success clears the edit and reloads; with nothing being edited, the fixed message is thrown |
| Screens.HandleDelete | src/pages/Brands.jsx:99-108 | the pending item is cleared whatever happens; a DELETE is sent exactly when there is one; the screen error is set exactly when the deletion did not succeed |
| Screens.CreateThenReload | src/pages/Brands.jsx:77-85 | a successful create followed by a successful reload shows exactly the reloaded list, with the dialog closed and no error |
| Screens.FailedUpdateRetries | src/pages/Brands.jsx:88-96 | after a failed update the same item is still being edited, and retrying sends the same request |
| Screens.Dispatch | src/pages/Brands.jsx:30-38 | each setter changes only its own piece of state; items, loading flag and error are untouched |
| Screens.Visible | src/pages/Brands.jsx:71-74 | the rows shown are exactly the loaded items whose fields match the search |
| Screens.DialogsKeepRows | src/pages/Brands.jsx:71-74 | opening or closing dialogs never changes which rows are shown; only the search box does |
| FormSubmit.Submit | src/components/brands/BrandForm.jsx:35-56 | the handler runs only when not submitting and the field rules pass; onSubmit receives the payload exactly when building it did not throw; the form ends not submitting, with an error exactly when something threw |
| FormSubmit.FailureAllowsRetry | src/components/brands/BrandForm.jsx:51-55 | after a rejected submit the form can run again and hands over the same payload |
| DeleteDialogs.BrandDialog | src/components/brands/DeleteConfirmDialog.jsx:12-38 | nothing renders without a brand; with one, the warning shows and confirm is disabled exactly when the brand has products |
| DeleteDialogs.ManufacturerDialog | src/components/manufacturers/DeleteConfirmDialog.jsx:12-38 | the same gate as for brands, on the manufacturer's brand count |
| DeleteDialogs.CategoryDialog | src/components/categories/DeleteConfirmDialog.jsx:13-42 | open exactly when there is a category, never gated, with the subcategory note exactly when its parent id is truthy |
| DeleteDialogs.StoreDialog | src/components/stores/DeleteConfirmDialog.jsx:12-29 | open as the caller says, with no notice and confirm always enabled |
| DeleteDialogs.Click | src/components/brands/DeleteConfirmDialog.jsx:33-38 | confirm reaches onConfirm exactly when the dialog is open and the button enabled; cancel and dismissal reach the close callback exactly when it is open |
| DeleteDialogs.WarningIffBlocked | src/components/brands/DeleteConfirmDialog.jsx:23-38 | in the gated dialogs the warning is shown exactly when pressing confirm does nothing |
| DeleteDialogs.UngatedAlwaysConfirms | src/components/categories/DeleteConfirmDialog.jsx:38-44 | the category and store dialogs confirm whatever the record holds |
| Flows.OutcomeOf | src/components/brands/BrandForm.jsx:50-52 | the form sees a rejection exactly when the screen handler threw, carrying that message |
| Flows.SubmitCreate | src/pages/Brands.jsx:133-137 | a POST is sent exactly when the form runs and its payload was built; success closes the dialog, reloads and leaves the form idle; failure leaves the screen and shows the handler's message in the form |
| Flows.SubmitUpdate | src/pages/Brands.jsx:245-250 | as for create, and the PUT targets the item being edited; the screen changes only on success |
| Flows.DeleteStep | src/pages/Brands.jsx:255-260 | a DELETE of the shown item is sent exactly when confirm is live and pressed; closing clears the pending item; a press with no effect changes nothing |
| Flows.DeleteRun | src/pages/Brands.jsx:255-260 | a run of presses sends at most one request per press |
| Flows.BlockedNeverSends | src/components/brands/DeleteConfirmDialog.jsx:35-38 | while confirm is not live, no run of presses deletes anything and the rows stay |
| Flows.AtMostOneDeletion | src/pages/Brands.jsx:99-108 | any run of presses on one dialog deletes at most one item |
| BrandForm.Defaults | src/components/brands/BrandForm.jsx:26-30 | the edit form starts from the brand's name and manufacturer, and is active unless the brand says false |
| BrandForm.Display | src/components/brands/BrandForm.jsx:85 | the select shows 'none' exactly when no manufacturer is set, else the manufacturer id |
| BrandForm.Select | src/components/brands/BrandForm.jsx:86 | picking 'none' nulls the manufacturer, anything else sets it, and the other fields stay |
| BrandForm.SelectDisplayRoundTrip | src/components/brands/BrandForm.jsx:85-86 | the select shows back whatever item was picked |
| BrandForm.Payload | src/components/brands/BrandForm.jsx:41-48 | the payload is name and active, plus the manufacturer exactly when one is set |
| BrandForm.SelectThenPayload | src/components/brands/BrandForm.jsx:46-48 | after a pick, the manufacturer is sent exactly when the picked item is a real id, and then it is that id |
| BrandForm.Submit | src/components/brands/BrandForm.jsx:35-56 | onSubmit is called exactly when the name rule passes and no submit is in flight, and it is given the cleaned payload |
| CategoryForm.Defaults | src/components/categories/CategoryForm.jsx:39-44 | the edit form starts from the category, with an empty description when it has none and a parent only when its parent id is truthy |
| CategoryForm.ChooseParentAsWritten | src/components/categories/CategoryForm.jsx:116-126 | with the select as written, every item's value, the root item's "none" included, becomes the parent id |
| CategoryForm.RootChoiceRejected | src/components/categories/CategoryForm.jsx:29 | after picking the root item with the select as written, the schema always fails |
| CategoryForm.ChooseParent | src/components/categories/CategoryForm.jsx:116-126 | the corrected select maps the root item to no parent and any other item to that id |
| CategoryForm.ChooseParentKeepsSchema | src/components/categories/CategoryForm.jsx:26-31 | with the corrected select, picking the root or a listed category keeps valid values valid, and the root sends `parent_id: null` |
| CategoryForm.Payload | src/components/categories/CategoryForm.jsx:52-56 | the payload always has the four keys: the description is trimmed or null when blank, the parent id is null when falsy, and the rest pass through |
| CategoryForm.PayloadStable | src/components/categories/CategoryForm.jsx:52-56 | values read back from a cleaned payload clean to the same payload |
| CategoryForm.Submit | src/components/categories/CategoryForm.jsx:47-63 | the schema decides whether onSubmit runs; a rejection with an empty message shows the fallback message |
| ManufacturerForm.Defaults | src/components/manufacturers/ManufacturerForm.jsx:18-24 | the form has exactly the five fields, each defaulting to the record's value or the empty string |
| ManufacturerForm.Clean | src/components/manufacturers/ManufacturerForm.jsx:33-38 | a field is kept exactly when its value is not all whitespace, and is kept trimmed |
| ManufacturerForm.CleanIdempotent | src/components/manufacturers/ManufacturerForm.jsx:34-37 | cleaning a cleaned form changes nothing |
| ManufacturerForm.BlankFieldOmitted | src/components/manufacturers/ManufacturerForm.jsx:35-36 | a field left blank is never sent, so clearing a field does not clear the stored value |
| ManufacturerForm.BlankNameSentWithoutName | src/components/manufacturers/ManufacturerForm.jsx:61-64 | a name made of spaces passes the length rule and is then dropped, so the payload has no name |
| ManufacturerForm.Payload | src/components/manufacturers/ManufacturerForm.jsx:33-40 | the payload holds exactly the non-blank fields, trimmed, as strings |
| ManufacturerForm.Submit | src/components/manufacturers/ManufacturerForm.jsx:27-46 | onSubmit runs exactly when the rules pass; it receives the cleaned fields and never a key outside the form's fields |
| StoreForm.Defaults | src/components/stores/StoreForm.jsx:26-30 | the edit form starts from the store's name and base URL (empty when absent), and is active unless told otherwise |
| StoreForm.Payload | src/components/stores/StoreForm.jsx:38 | the values are sent as they are: exactly name, base URL and active, untrimmed |
| StoreForm.PayloadInjective | src/components/stores/StoreForm.jsx:33-38 | different form values are never sent as the same payload |
| StoreForm.Submit | src/components/stores/StoreForm.jsx:33-44 | onSubmit runs exactly when name and URL rules pass; a rejection's message becomes the form error |
| CatalogForm.Defaults | src/components/products/ProductCatalogForm.jsx:30-36 | the edit form starts from the product; a missing brand or category becomes the 'none' item |
| CatalogForm.AttributesText | src/components/products/ProductCatalogForm.jsx:19-21 | the initial text is the stringified attributes when they are truthy, else empty |
| CatalogForm.Fields | src/components/products/ProductCatalogForm.jsx:44-62 | name and active always; sku exactly when not blank, trimmed; brand and category exactly when a real id is chosen |
| CatalogForm.WithAttributes | src/components/products/ProductCatalogForm.jsx:65-67 | the parsed attributes are added and every other field is kept |
| CatalogForm.Clean | src/components/products/ProductCatalogForm.jsx:44-71 | building throws the attributes message exactly when the text is not blank and does not parse; otherwise the payload has the fields, plus the attributes exactly when the text is not blank |
| CatalogForm.Submit | src/components/products/ProductCatalogForm.jsx:39-79 | submits exactly when not in flight, valid, and the attributes are blank or parse; the payload sent is the cleaned one, carrying every field and the attributes exactly when their text is not blank; unparsable attributes stop the submit with the attributes message; a run always ends not submitting |
| CatalogForm.EditResendsAttributes | src/components/products/ProductCatalogForm.jsx:64-71 | saving a product untouched re-sends its attributes when stringify and parse round-trip |
| CatalogForm.EditResendsFields | src/components/products/ProductCatalogForm.jsx:30-52 | saving untouched re-sends the name, and the SKU exactly when the product has a non-blank one |
| CatalogForm.EditResendsIds | src/components/products/ProductCatalogForm.jsx:33-61 | saving untouched re-sends the brand and category the product has, and never one it lacks |
| CatalogForm.NewProductMinimalPayload | src/components/products/ProductCatalogForm.jsx:44-71 | a new product with every optional field left alone sends exactly name and active |
| BrandsPage.LoadBrands | src/pages/Brands.jsx:41-53 | loads `/brands/with-manufacturer` including inactive brands; the error shows exactly on failure |
| BrandsPage.LoadManufacturers | src/pages/Brands.jsx:56-63 | the form's manufacturer options are replaced on success and kept on failure, with no error shown |
| BrandsPage.Rows | src/pages/Brands.jsx:71-74 | a brand is listed exactly when the search occurs in its name or its manufacturer's name, ignoring ASCII case |
| BrandsPage.EmptySearchListsAll | src/pages/Brands.jsx:71-74 | with an empty search every brand is listed, in load order |
| BrandsPage.Create | src/pages/Brands.jsx:77-85 | a POST of the cleaned brand is sent exactly when the form runs; success closes the dialog and reloads; failure shows the message in the form |
| BrandsPage.Update | src/pages/Brands.jsx:88-96 | a PUT to the brand being edited is sent exactly when the form runs and a brand is being edited |
| BrandsPage.EditUntouchedResends | src/pages/Brands.jsx:245-249 | saving a brand untouched re-sends its name, and its manufacturer exactly when it has one |
| BrandsPage.PressDelete | src/pages/Brands.jsx:255-260 | the DELETE is sent exactly when a brand without products is confirmed |
| BrandsPage.BrandWithProductsKept | src/pages/Brands.jsx:255-260 | a brand that has products is never deleted from this screen, whatever is pressed |
| CategoriesPage.LoadCategories | src/pages/Categories.jsx:40-52 | loads `/categories` with exactly `{skip: 0, limit: 100}`; the error shows exactly on failure |
| CategoriesPage.Rows | src/pages/Categories.jsx:59-62 | a category is listed exactly when the search occurs in its name or description |
| CategoriesPage.EmptySearchListsAll | src/pages/Categories.jsx:59-62 | with an empty search every category is listed |
| CategoriesPage.FindIndex | src/pages/Categories.jsx:101 | `find` gives the first category with that id, or none |
| CategoriesPage.ParentName | src/pages/Categories.jsx:99-103 | '-' without a parent id; 'N/A' when no category has it; otherwise the first such category's name when it is not empty and 'N/A' when it is |
| CategoriesPage.ParentNameOfListedParent | src/pages/Categories.jsx:99-103 | with unique ids, a listed parent with a name is shown by that name |
| CategoriesPage.EditOptions | src/pages/Categories.jsx:237 | the edit form offers exactly the loaded categories other than the one edited |
| CategoriesPage.ChildOfferedAsParent | src/pages/Categories.jsx:237 | a category's own children remain offered as its parent, so a cycle can be sent |
| CategoriesPage.Create | src/pages/Categories.jsx:65-73 | a POST of the cleaned category is sent exactly when the schema passes; success reloads, failure shows the message in the form |
| CategoriesPage.Update | src/pages/Categories.jsx:76-84 | a PUT to the category being edited is sent exactly when the schema passes and a category is being edited |
| CategoriesPage.PressDelete | src/pages/Categories.jsx:246-250 | confirm always sends the DELETE of the category shown; cancel clears it |
| CategoriesPage.DeletesAtMostOne | src/pages/Categories.jsx:87-96 | any run of presses on the dialog deletes at most one category |
| StoresPage.LoadStores | src/pages/Stores.jsx:40-52 | loads `/stores` with no `active_only` or `search`; the error shows exactly on failure |
| StoresPage.Rows | src/pages/Stores.jsx:59-62 | a store is listed exactly when the search occurs in its name or base URL |
| StoresPage.EmptySearchListsAll | src/pages/Stores.jsx:59-62 | with an empty search every store is listed |
| StoresPage.Create | src/pages/Stores.jsx:65-73 | a POST of the form values is sent exactly when the rules pass |
| StoresPage.Update | src/pages/Stores.jsx:76-84 | a PUT to the store being edited is sent exactly when the rules pass and a store is being edited |
| StoresPage.EditWithoutUrlBlocked | src/pages/Stores.jsx:236-240 | a store without a base URL cannot be saved untouched from the edit form |
| StoresPage.PressDelete | src/pages/Stores.jsx:245-250 | confirm always sends the DELETE of the store shown |
| StoresPage.ConfirmDeletesOnce | src/pages/Stores.jsx:87-96 | the first confirm deletes the store, and nothing pressed afterwards deletes again |
| ManufacturersPage.LoadManufacturers | src/pages/Manufacturers.jsx:40-52 | loads `/manufacturers/with-brands` with limit 100; the error shows exactly on failure |
| ManufacturersPage.Rows | src/pages/Manufacturers.jsx:59-63 | a manufacturer is listed exactly when the search occurs in its name, country or business line |
| ManufacturersPage.EmptySearchListsAll | src/pages/Manufacturers.jsx:59-63 | with an empty search every manufacturer is listed |
| ManufacturersPage.Create | src/pages/Manufacturers.jsx:66-74 | a POST of the non-blank trimmed fields is sent exactly when the rules pass |
| ManufacturersPage.Update | src/pages/Manufacturers.jsx:77-85 | a PUT to the manufacturer being edited is sent exactly when the rules pass and one is being edited |
| ManufacturersPage.ClearedFieldNotSent | src/pages/Manufacturers.jsx:77-85 | clearing a field while editing sends an update without that key |
| ManufacturersPage.PressDelete | src/pages/Manufacturers.jsx:258-263 | the DELETE is sent exactly when a manufacturer without brands is confirmed |
| ManufacturersPage.ManufacturerWithBrandsKept | src/pages/Manufacturers.jsx:258-263 | a manufacturer with brands is never deleted from this screen, whatever is pressed |
| CatalogPage.LoadProducts | src/pages/ProductsCatalog.jsx:42-54 | loads `/products-catalog/with-details` with `active_only=false`; the error shows exactly on failure |
| CatalogPage.LoadFormData | src/pages/ProductsCatalog.jsx:57-68 | brands and categories are both requested; the options change only when both succeed |
| CatalogPage.Rows | src/pages/ProductsCatalog.jsx:76-81 | a product is listed exactly when the search occurs in its name, or in its SKU, brand name or category name when present |
| CatalogPage.EmptySearchListsAll | src/pages/ProductsCatalog.jsx:76-81 | with an empty search every product is listed |
| CatalogPage.Create | src/pages/ProductsCatalog.jsx:84-92 | a POST is sent exactly when the rules pass and the attributes are blank or parse, and it carries the cleaned payload |
| CatalogPage.CreateBadAttributes | src/components/products/ProductCatalogForm.jsx:64-75 | unparsable attributes stop the create in the form with the attributes message, before any request |
| CatalogPage.CreateOutcome | src/pages/ProductsCatalog.jsx:84-92 | after the POST, success closes the dialog and reloads; failure keeps the screen and shows the message |
| CatalogPage.Update | src/pages/ProductsCatalog.jsx:95-103 | a PUT to the product being edited is sent exactly when the rules pass, the attributes are blank or parse, and a product is being edited |
| CatalogPage.UpdateBadAttributes | src/components/products/ProductCatalogForm.jsx:64-75 | unparsable attributes stop the edit in the form, before any request |
| CatalogPage.UpdateOutcome | src/pages/ProductsCatalog.jsx:95-103 | after the PUT, success clears the edit and reloads; failure keeps the screen and shows the message |
| CatalogPage.ConfirmDelete | src/pages/ProductsCatalog.jsx:106-115 | a DELETE of the pending product is sent exactly when there is one; the screen error is set exactly when it did not succeed |
| ProductsPage.LoadProducts | src/pages/Products.jsx:27-39 | loads `/products` with no query; the error shows exactly on failure |
| ProductsPage.Rows | src/pages/Products.jsx:46-50 | an offer is listed exactly when the search occurs in its catalog name, store name or category name, whichever are present |
| ProductsPage.EmptySearchListsNamed | src/pages/Products.jsx:46-50 | an empty search shows every offer exactly when each has a catalog, store or category name |
| ProductsPage.Groups | src/pages/Products.jsx:72-88 | one group per distinct catalog id among the shown offers; without index-like ids, the groups are exactly the grouping of those offers and lose none |
| ProductsPage.IdSetBound | src/pages/Products.jsx:113-120 | there are no more distinct catalog ids than offers, and none exactly when there are no offers |
| ProductsPage.Count | src/pages/Products.jsx:110-121 | the catalog counter equals the number of distinct ids, never exceeds the offer counter, and is zero exactly when that counter is zero |
| Grouping.FindGroup | src/pages/Products.jsx:74 | `acc[key]` finds the group with that catalog id, and none exactly when the id has no group yet |
| Grouping.AddRow | src/pages/Products.jsx:73-85 | a step adds a new group key exactly when the offer's id has no group yet |
| Grouping.NewGroup | src/pages/Products.jsx:75-82 | a new group is headed by the offer that created it and holds just that offer |
| Grouping.GroupRowsIsGrouping | src/pages/Products.jsx:72-86 | the reducer yields one group per distinct id, in first-seen order; each group holds exactly the offers with its id, in order, and is headed by the first of them |
| Grouping.GroupsAreHomogeneous | src/pages/Products.jsx:74-84 | every group is non-empty, all its offers carry its id, and its header is that of the first offer seen for the id |
| Grouping.GroupRowsConserves | src/pages/Products.jsx:72-86 | the groups' offers are a permutation of the input: none lost, none invented |
| Grouping.KeysAreIds | src/pages/Products.jsx:72-86 | in a grouping an id has a group exactly when some offer carries it |
| Grouping.GroupCountIsDistinctIds | src/pages/Products.jsx:120 | the number of groups equals the number of distinct catalog ids |
| Grouping.DecimalValueDefined | src/pages/Products.jsx:88 | a key has a decimal value exactly when it is a non-empty string of digits |
| Grouping.Insert | src/pages/Products.jsx:88 | placing an index-keyed group keeps the run ascending and adds exactly that group |
| Grouping.IndexGroups | src/pages/Products.jsx:88 | the index-keyed groups, ascending by numeric key, none lost |
| Grouping.ObjectValues | src/pages/Products.jsx:88 | `Object.values` lists every group exactly once |
| Grouping.ObjectValuesOrder | src/pages/Products.jsx:88 | `Object.values` lists the index-keyed groups first, ascending, then the rest in creation order |
| Grouping.ObjectValuesKeepsOrder | src/pages/Products.jsx:88 | without array-index-like ids, `Object.values` keeps the creation order |
| Grouping.GroupedList | src/pages/Products.jsx:72-88 | the grouped list has one entry per distinct id; without index-like ids it is exactly the first-seen grouping of the offers |
| Grouping.NoIndexKeys | src/pages/Products.jsx:72-88 | offers without index-like ids give groups without them, so `Object.values` changes nothing |

## Left out

- Rendering, styling and layout are not modelled. This covers tables, badges, icons, the "no data" and loading placeholders, and the disabled "no-data" select item.
- The automatic closing of the Radix alert dialog after its action button is not modelled. The screen's own handler clears the pending item.
- HTTP transport, axios and the base URL are left out. A request is modelled by method, path, query and body.
- The insertion order of query parameters is left out. The backend reads parameters by name.
- Concurrency is left out: interleaved handlers, out-of-order responses, and `Promise.all` beyond "both succeed or the options stay". Each handler is one atomic step.
- The reload a handler starts is modelled as its synchronous start (`LoadStart`). Its completion is a separate `LoadFinish`.
- `formatDate`, `formatPrice` and the "last update" statistic of the offers screen are left out. They use locale formatting and dates.
- `console.error` logging is left out.
- `toLowerCase` is modelled on ASCII letters only. Unicode case mapping is left out.
- String lengths are counted in code points, not UTF-16 code units.
- `JSON.parse` and `JSON.stringify` are parameters, not models. Their grammar and formatting are out of scope.
- A backend `detail` that is not a string is left out. It is modelled as an optional string.
- The browser's native `type="url"` validation is left out. It applies to the store base URL and the manufacturer website.
- Version and variant rules of zod's `uuid()` are left out. Only the textual 8-4-4-4-12 hex shape is modelled.
- Inherited object keys in the offers reducer are left out. A catalog id such as "constructor" or "__proto__" finds an inherited value on the empty accumulator. Catalog ids are modelled as plain strings with an own-key lookup.
- `src/App.jsx` and `src/pages/Home.jsx` are not part of this model. They hold routing and a static landing page.
- The catalog products screen's delete dialog (`src/components/products/DeleteConfirmDialog.jsx`) is not part of this model. Only the screen's delete handler is modelled (`CatalogPage.ConfirmDelete`).
- Grouping.GroupedList: the exact first-seen grouping is proved only when no catalog id looks like an array index. For other ids the ordering is stated separately by `Grouping.ObjectValuesOrder`.

## Findings

| source | as written | input that shows it | evidently intended | confidence | as-written member | corrected member |
|---|---|---|---|---|---|---|
| src/components/categories/CategoryForm.jsx:116-126 | The parent select passes every item's value to the field. The root item's value "none" becomes `parent_id: "none"`, which `z.string().uuid()` rejects. | Edit a category that has a parent and pick "Ninguna (categoría raíz)". The schema fails on `parent_id`, so the form cannot be submitted. | Picking the root item clears the parent and sends `parent_id: null`. | not executed | CategoryForm.ChooseParentAsWritten, CategoryForm.RootChoiceRejected | CategoryForm.ChooseParent, CategoryForm.ChooseParentKeepsSchema |
