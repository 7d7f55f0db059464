/** The scraped offers screen: rows from `/products`, searched by catalog name, store
    name and category name, then grouped by catalog product for the table and the two
    counters. */
module ProductsPage {
  import opened Wrappers
  import opened Text
  import opened Entities
  import opened Search
  import opened Screens
  import opened Grouping
  import Api

  const LoadError := "Error al cargar los productos scrapeados"

  /** The searched fields, all optional: an offer with none of them never matches. */
  function SearchFields(o: ScrapedOffer): seq<Option<string>> {
    [o.catalog_name, o.store_name, o.category_name]
  }

  datatype Loaded = Loaded(request: Api.Request, screen: Screen<ScrapedOffer>)

  /** `loadProducts()`: every offer, with no query at all. */
  function LoadProducts(s: Screen<ScrapedOffer>, res: ApiResult<seq<ScrapedOffer>>): (r: Loaded)
    ensures r.request.path == "/products" && r.request.query == Api.NoQuery
    ensures !r.screen.loading && (r.screen.error.Some? <==> res.Err?)
    ensures res.Ok? ==> r.screen.items == res.data
    ensures res.Err? ==> r.screen.items == s.items && r.screen.error == Some(ErrorMessage(res.detail, LoadError))
  {
    Loaded(Api.ProductsGetAll(), Load(s, res, LoadError))
  }

  /** The offers that pass the search: the term occurs, ignoring ASCII case, in the catalog
      name, the store name or the category name, whichever are present. */
  function Rows(s: Screen<ScrapedOffer>): (r: seq<ScrapedOffer>)
    ensures |r| <= |s.items|
    ensures forall o :: o in r <==>
      (o in s.items
       && ((o.catalog_name.Some? && Includes(Lower(o.catalog_name.value), Lower(s.search)))
           || (o.store_name.Some? && Includes(Lower(o.store_name.value), Lower(s.search)))
           || (o.category_name.Some? && Includes(Lower(o.category_name.value), Lower(s.search)))))
  {
    var r := Visible(s, SearchFields);
    forall o ensures AnyFieldMatches(SearchFields(o), s.search)
        <==> FieldMatches(o.catalog_name, s.search) || FieldMatches(o.store_name, s.search)
             || FieldMatches(o.category_name, s.search) {
      assert SearchFields(o)[0] == o.catalog_name;
      assert SearchFields(o)[1] == o.store_name;
      assert SearchFields(o)[2] == o.category_name;
    }
    r
  }

  /** Unlike the other screens, an empty search hides offers: it keeps every offer exactly
      when each has a catalog name, store name or category name. */
  lemma EmptySearchListsNamed(s: Screen<ScrapedOffer>)
    requires s.search == ""
    ensures Rows(s) == s.items <==> forall i :: 0 <= i < |s.items| ==>
      (s.items[i].catalog_name.Some? || s.items[i].store_name.Some? || s.items[i].category_name.Some?)
  {
    EmptyTermKeepsIff(s.items, SearchFields);
    forall i | 0 <= i < |s.items|
      ensures HasPresentField(SearchFields(s.items[i]))
          <==> (s.items[i].catalog_name.Some? || s.items[i].store_name.Some? || s.items[i].category_name.Some?)
    {
      var f := SearchFields(s.items[i]);
      assert f[0] == s.items[i].catalog_name && f[1] == s.items[i].store_name && f[2] == s.items[i].category_name;
    }
  }

  /** The table's groups: the passing offers grouped by catalog id. */
  function Groups(s: Screen<ScrapedOffer>): (r: seq<Group>)
    ensures |r| == |IdSet(Rows(s))|
    ensures (forall k :: 0 <= k < |Rows(s)| ==> !IsArrayIndex(Rows(s)[k].catalog_id))
        ==> IsGroupingOf(r, Rows(s)) && |Flatten(r)| == |Rows(s)|
  {
    GroupedList(Rows(s))
  }

  /** A list has no more distinct catalog ids than offers, and none exactly when it is empty. */
  lemma {:induction false} IdSetBound(rows: seq<ScrapedOffer>)
    ensures |IdSet(rows)| <= |rows|
    ensures |IdSet(rows)| == 0 <==> rows == []
    decreases |rows|
  {
    if rows == [] {
      assert IdSet(rows) == {};
    } else {
      var init := rows[..|rows| - 1];
      var o := rows[|rows| - 1];
      assert rows == init + [o];
      IdSetBound(init);
      IdSetSnoc(init, o);
      assert o.catalog_id in IdSet(rows);
    }
  }

  /** The two counters: "Total Productos" and "Productos en Catálogo". */
  datatype Counters = Counters(total: nat, catalog: nat)

  function Count(s: Screen<ScrapedOffer>): (c: Counters)
    ensures c.total == |Rows(s)| && c.catalog == |IdSet(Rows(s))|
    ensures c.catalog <= c.total
    ensures c.catalog == 0 <==> c.total == 0
  {
    IdSetBound(Rows(s));
    Counters(|Rows(s)|, |Groups(s)|)
  }
}
