/** Request bodies as the forms build them: JSON objects keyed by field name. */
module Payloads {

  /** A parsed JSON value (the `attributes` of a catalog product). */
  datatype Json =
    | JNull
    | JBool(b: bool)
    | JNumber(n: real)
    | JString(s: string)
    | JArray(items: seq<Json>)
    | JObject(members: seq<(string, Json)>)

  /** JavaScript truthiness of a parsed JSON value: objects and arrays are always truthy. */
  predicate JsonTruthy(j: Json) {
    match j
    case JNull => false
    case JBool(b) => b
    case JNumber(n) => n != 0.0
    case JString(s) => s != ""
    case JArray(_) => true
    case JObject(_) => true
  }

  /** One field value of a request body. */
  datatype Value = VStr(s: string) | VBool(b: bool) | VNull | VJson(j: Json)

  /** A request body: the keys present and their values. */
  type Payload = map<string, Value>

  /** `if (cond) body[k] = x`: the field is set when the condition holds, and nothing else changes. */
  function PutIf(p: Payload, cond: bool, k: string, x: Value): (r: Payload)
    ensures r.Keys == if cond then p.Keys + {k} else p.Keys
    ensures cond ==> r[k] == x
    ensures forall j :: j in p && j != k ==> r[j] == p[j]
  {
    if cond then p[k := x] else p
  }
}

/** The records the backend returns, with the fields the console reads. Fields read
    through `?.` or checked for truthiness are `Option`s; identifiers are opaque strings. */
module Entities {
  import opened Wrappers
  import opened Payloads

  datatype Category = Category(
    id: string,
    name: string,
    description: Option<string>,
    parent_id: Option<string>,
    is_active: Option<bool>)

  /** A brand as returned by `/brands/with-manufacturer`. */
  datatype Brand = Brand(
    id: string,
    name: string,
    manufacturer_id: Option<string>,
    manufacturer_name: Option<string>,
    active: Option<bool>,
    product_count: Option<int>)

  /** A manufacturer as returned by `/manufacturers/with-brands`. */
  datatype Manufacturer = Manufacturer(
    id: string,
    name: string,
    tax_id: Option<string>,
    country: Option<string>,
    website: Option<string>,
    main_business_line: Option<string>,
    brand_count: Option<int>)

  datatype Store = Store(
    id: string,
    name: string,
    base_url: Option<string>,
    active: Option<bool>)

  /** A catalog product as returned by `/products-catalog/with-details`. */
  datatype CatalogProduct = CatalogProduct(
    id: string,
    name: string,
    sku: Option<string>,
    brand_id: Option<string>,
    category_id: Option<string>,
    brand_name: Option<string>,
    category_name: Option<string>,
    attributes: Option<Json>,
    active: Option<bool>)

  datatype Price = Price(price: real, original_price: Option<real>, in_stock: bool)

  /** One scraped price observation: a catalog product as offered by one store. */
  datatype ScrapedOffer = ScrapedOffer(
    id: string,
    catalog_id: string,
    catalog_name: Option<string>,
    catalog_sku: Option<string>,
    brand_name: Option<string>,
    category_name: Option<string>,
    store_name: Option<string>,
    store_active: bool,
    price: Option<Price>,
    url: Option<string>,
    last_scraped_at: Option<string>)
}
