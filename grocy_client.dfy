/**
 * The request logic of paperless-grocy-magic/app/grocy_client.py: which
 * requests each operation sends, the JSON bodies it builds, and which
 * answers it counts as success. The answers of the Grocy server are oracle
 * parameters; the two float formats (`{price:.2f}` and `str(price)`), the
 * `re.sub` replacement and today's date are parameters too.
 */
module GrocyClient {
  import opened Wrappers
  import opened Text
  import opened Decimal
  import opened Http

  /** A product record as decoded from Grocy's JSON (`GrocyProduct`); a missing or null description is `None`. */
  datatype GrocyProduct = GrocyProduct(
    id: nat,
    name: string,
    description: Option<string>,
    barcode: string,
    locationId: Option<nat>,
    quIdPurchase: Option<nat>,
    quIdStock: Option<nat>)

  /** A value in a JSON body the client sends. */
  datatype Value = Str(text: string) | Id(id: nat) | Num(x: real)

  type Json = map<string, Value>

  /** A client: the base URL with its trailing slashes removed, and the API key. */
  datatype Client = Client(baseUrl: string, apiKey: string) {

    function Url(endpoint: string): string {
      ApiUrl(baseUrl, endpoint)
    }
  }

  /** `GrocyClient.__init__` (lines 29-31). */
  function NewClient(baseUrl: string, apiKey: string): Client {
    Client(BaseUrl(baseUrl), apiKey)
  }

  function ProductUrl(c: Client, productId: nat): string {
    c.Url("/objects/products/" + NatText(productId))
  }

  /**
   * `test_connection` (lines 73-89): connected when `/system/info` answers
   * with a non-empty object, or else when the product list answers at all,
   * even with an empty list. The fallback is only asked after a failed
   * `/system/info`.
   */
  method TestConnection(c: Client, info: Reply<()>, products: Reply<seq<GrocyProduct>>)
    returns (ok: bool, sent: seq<Request<Json>>)
    ensures ok <==> info.Truthy() || products.IsNotNone()
    ensures info.Truthy() ==> sent == [Get(c.Url("/system/info"))]
    ensures !info.Truthy() ==> sent == [Get(c.Url("/system/info")), Get(c.Url("/objects/products"))]
  {
    sent := [Get(c.Url("/system/info"))];
    if info.Truthy() {
      return true, sent;
    }
    sent := sent + [Get(c.Url("/objects/products"))];
    ok := products.IsNotNone();
  }

  /** `get_all_products` (lines 91-98): the decoded list when it is non-empty, otherwise no products. */
  function GetAllProducts(reply: Reply<seq<GrocyProduct>>): (r: seq<GrocyProduct>)
    ensures r == [] <==> !ListTruthy(reply)
    ensures r != [] ==> r == reply.value
  {
    if ListTruthy(reply) then reply.value else []
  }

  /** `query_lower in p.name.lower()` */
  predicate NameMatches(p: GrocyProduct, query: string) {
    Contains(Lower(p.name), Lower(query))
  }

  /** The list comprehension of `search_products` (line 106), front to back. */
  function MatchingProducts(products: seq<GrocyProduct>, query: string): (r: seq<GrocyProduct>)
    ensures |r| <= |products|
  {
    if products == [] then []
    else (if NameMatches(products[0], query) then [products[0]] else []) + MatchingProducts(products[1..], query)
  }

  /** `search_products` (lines 100-108) over the answer to the product list request. */
  function SearchProducts(reply: Reply<seq<GrocyProduct>>, query: string): seq<GrocyProduct> {
    MatchingProducts(GetAllProducts(reply), query)
  }

  /** The search keeps exactly the products whose lower-cased name contains the lower-cased query. */
  lemma {:induction false} MatchingProductsMembers(products: seq<GrocyProduct>, query: string, p: GrocyProduct)
    ensures p in MatchingProducts(products, query) <==> p in products && NameMatches(p, query)
  {
    if products != [] {
      MatchingProductsMembers(products[1..], query, p);
      assert products == [products[0]] + products[1..];
    }
  }

  /** The search filters each part of the list separately, so it keeps the products in their order. */
  lemma {:induction false} MatchingProductsAppend(a: seq<GrocyProduct>, b: seq<GrocyProduct>, query: string)
    ensures MatchingProducts(a + b, query) == MatchingProducts(a, query) + MatchingProducts(b, query)
  {
    if a == [] {
      assert a + b == b;
    } else {
      var h := if NameMatches(a[0], query) then [a[0]] else [];
      assert (a + b)[0] == a[0];
      assert (a + b)[1..] == a[1..] + b;
      assert MatchingProducts(a + b, query) == h + MatchingProducts(a[1..] + b, query);
      MatchingProductsAppend(a[1..], b, query);
      assert h + (MatchingProducts(a[1..], query) + MatchingProducts(b, query))
          == (h + MatchingProducts(a[1..], query)) + MatchingProducts(b, query);
    }
  }

  /** An empty query is contained in every name, so it finds every product. */
  lemma {:induction false} EmptyQueryFindsAll(products: seq<GrocyProduct>)
    ensures MatchingProducts(products, "") == products
  {
    if products != [] {
      assert OccursAt(Lower(products[0].name), Lower(""), 0);
      EmptyQueryFindsAll(products[1..]);
    }
  }

  /** `get_product` (lines 110-115): a product exactly when the answer is a non-empty object. */
  function GetProduct(reply: Reply<GrocyProduct>): (r: Option<GrocyProduct>)
    ensures r.Some? <==> reply.Truthy()
    ensures r.Some? ==> r.value == reply.value
  {
    if reply.Truthy() then Some(reply.value) else None
  }

  /** `f"Preis: {price:.2f}€ ({store})"` with the formatted price given. */
  function PriceInfo(priceText: string, store: string): string {
    "Preis: " + priceText + "€ (" + store + ")"
  }

  /** `if store:` */
  predicate StoreGiven(store: Option<string>) {
    store.Some? && store.value != ""
  }

  /**
   * `update_data` of `update_product_price` (lines 130-146); `money` is
   * `{:.2f}` and `resub(desc, info)` the regular-expression replacement.
   */
  function DescriptionUpdate(description: Option<string>, price: real, store: Option<string>,
                             money: real -> string, resub: (string, string) -> string): Json
  {
    if StoreGiven(store) then
      var desc := description.GetOr("");
      var info := PriceInfo(money(price), store.value);
      map["description" := Str(if Contains(desc, "Preis:") then resub(desc, info) else Strip(desc + "\n" + info))]
    else
      map[]
  }

  /** Without a store the update is empty, so the description stays as it is. */
  lemma NoStoreNoUpdate(description: Option<string>, price: real, store: Option<string>,
                        money: real -> string, resub: (string, string) -> string)
    requires !StoreGiven(store)
    ensures DescriptionUpdate(description, price, store, money, resub) == map[]
  {
  }

  /**
   * With a store and a description without `Preis:`, the price information
   * becomes a new last line: after the description without its leading
   * whitespace, or on its own when the description is blank. The new
   * description then holds `Preis:`, so a later update replaces it instead.
   */
  lemma PriceInfoAppended(description: Option<string>, price: real, store: Option<string>,
                          money: real -> string, resub: (string, string) -> string)
    requires StoreGiven(store)
    requires !Contains(description.GetOr(""), "Preis:")
    ensures var desc := description.GetOr("");
      var info := PriceInfo(money(price), store.value);
      var d := if AllSpace(desc) then info else LStrip(desc) + "\n" + info;
      && DescriptionUpdate(description, price, store, money, resub) == map["description" := Str(d)]
      && Contains(d, "Preis:")
  {
    var desc := description.GetOr("");
    var info := PriceInfo(money(price), store.value);
    StripAppendedLine(desc, info);
    assert StartsWith(info, "Preis:");
    if AllSpace(desc) {
      ContainsStart("", info, "Preis:");
      assert "" + info == info;
    } else {
      ContainsStart(LStrip(desc) + "\n", info, "Preis:");
    }
  }

  /**
   * `update_product_price` (lines 117-161). A product that cannot be read
   * gives failure before any PUT; otherwise the update is sent and succeeds
   * only when the answer is a non-empty object, so a 204 `{}` counts as
   * failure.
   */
  method UpdateProductPrice(c: Client, productId: nat, price: real, store: Option<string>,
                            money: real -> string, resub: (string, string) -> string,
                            fetched: Reply<GrocyProduct>, stored: Reply<()>)
    returns (ok: bool, error: string, sent: seq<Request<Json>>)
    ensures GetProduct(fetched).None? ==>
      && !ok && error == "Product " + NatText(productId) + " not found in Grocy"
      && sent == [Get(ProductUrl(c, productId))]
    ensures GetProduct(fetched).Some? ==>
      && sent == [Get(ProductUrl(c, productId)),
                  Put(ProductUrl(c, productId), DescriptionUpdate(fetched.value.description, price, store, money, resub))]
      && (ok <==> stored.Truthy())
      && error == (if ok then "" else "Grocy API returned empty response")
  {
    var url := ProductUrl(c, productId);
    sent := [Get(url)];
    var product := GetProduct(fetched);
    if product.None? {
      return false, "Product " + NatText(productId) + " not found in Grocy", sent;
    }
    var updateData: Json := map[];
    if StoreGiven(store) {
      var desc := product.value.description.GetOr("");
      var info := PriceInfo(money(price), store.value);
      if Contains(desc, "Preis:") {
        desc := resub(desc, info);
      } else {
        desc := Strip(desc + "\n" + info);
      }
      updateData := updateData["description" := Str(desc)];
    }
    sent := sent + [Put(url, updateData)];
    if stored.Truthy() {
      ok, error := true, "";
    } else {
      ok, error := false, "Grocy API returned empty response";
    }
  }

  /** `price_desc` of `create_product` (line 188): the price is mentioned unless it is zero. */
  function CreatedDescription(price: real, money: real -> string): (d: string)
    ensures price == 0.0 <==> d == "Automatisch erstellt"
  {
    if price != 0.0 then "Automatisch erstellt - Preis: " + money(price) + "€" else "Automatisch erstellt"
  }

  /** `if barcode:` */
  predicate BarcodeGiven(barcode: Option<string>) {
    barcode.Some? && barcode.value != ""
  }

  /** `product_data` of `create_product` (lines 190-199). */
  function ProductPayload(name: string, price: real, barcode: Option<string>, location: nat, unit: nat,
                          money: real -> string): (p: Json)
    ensures p.Keys == {"name", "description", "location_id", "qu_id_purchase", "qu_id_stock"}
                      + (if BarcodeGiven(barcode) then {"barcode"} else {})
    ensures p["name"] == Str(name) && p["description"] == Str(CreatedDescription(price, money))
    ensures p["location_id"] == Id(location)
    ensures p["qu_id_purchase"] == Id(unit) && p["qu_id_stock"] == Id(unit)
    ensures BarcodeGiven(barcode) ==> p["barcode"] == Str(barcode.value)
  {
    var data := map[
      "name" := Str(name),
      "description" := Str(CreatedDescription(price, money)),
      "location_id" := Id(location),
      "qu_id_purchase" := Id(unit),
      "qu_id_stock" := Id(unit)];
    if BarcodeGiven(barcode) then data["barcode" := Str(barcode.value)] else data
  }

  /**
   * `create_product` (lines 163-216): both lists are asked for first; an
   * empty or missing list of locations or of quantity units is an error
   * before any POST; otherwise the product is posted with the first location
   * and the first unit, and created exactly when the answer is a non-empty
   * object.
   */
  method CreateProduct(c: Client, name: string, price: real, barcode: Option<string>, money: real -> string,
                       locations: Reply<seq<nat>>, units: Reply<seq<nat>>, created: Reply<GrocyProduct>)
    returns (product: Option<GrocyProduct>, error: string, sent: seq<Request<Json>>)
    ensures |sent| >= 2 && sent[..2] == [Get(c.Url("/objects/locations")), Get(c.Url("/objects/quantity_units"))]
    ensures !ListTruthy(locations) ==>
      product.None? && error == "Could not get locations from Grocy - API returned empty" && |sent| == 2
    ensures ListTruthy(locations) && !ListTruthy(units) ==>
      product.None? && error == "Could not get quantity units from Grocy - API returned empty" && |sent| == 2
    ensures ListTruthy(locations) && ListTruthy(units) ==>
      && sent[2..] == [Post(c.Url("/objects/products"),
                           ProductPayload(name, price, barcode, locations.value[0], units.value[0], money))]
      && (product.Some? <==> created.Truthy())
      && (product.Some? ==> product.value == created.value && error == "")
      && (product.None? ==> error == "Grocy API returned empty response for POST /objects/products")
  {
    sent := [Get(c.Url("/objects/locations")), Get(c.Url("/objects/quantity_units"))];
    if !ListTruthy(locations) {
      return None, "Could not get locations from Grocy - API returned empty", sent;
    }
    if !ListTruthy(units) {
      return None, "Could not get quantity units from Grocy - API returned empty", sent;
    }
    var post;
    product, error, post := PostProduct(c, name, price, barcode, money, locations.value[0], units.value[0], created);
    sent := sent + [post];
  }

  /** The part of `create_product` after the guards (lines 181-211): build the payload, post it, read the answer. */
  method PostProduct(c: Client, name: string, price: real, barcode: Option<string>, money: real -> string,
                     location: nat, unit: nat, created: Reply<GrocyProduct>)
    returns (product: Option<GrocyProduct>, error: string, post: Request<Json>)
    ensures post == Post(c.Url("/objects/products"), ProductPayload(name, price, barcode, location, unit, money))
    ensures product.Some? <==> created.Truthy()
    ensures product.Some? ==> product.value == created.value && error == ""
    ensures product.None? ==> error == "Grocy API returned empty response for POST /objects/products"
  {
    var data := ProductPayload(name, price, barcode, location, unit, money);
    post := Post(c.Url("/objects/products"), data);
    if created.Truthy() {
      product, error := Some(created.value), "";
    } else {
      product, error := None, "Grocy API returned empty response for POST /objects/products";
    }
  }

  /** `stock_data` of `add_to_stock` (lines 238-245); `floatText` is `str()` of a float. */
  function StockPayload(amount: real, price: Option<real>, floatText: real -> string, bestBefore: string): (p: Json)
    ensures p.Keys == {"amount", "best_before_date"} + (if price.Some? then {"price"} else {})
    ensures p["amount"] == Num(amount) && p["best_before_date"] == Str(bestBefore)
    ensures price.Some? ==> p["price"] == Str(floatText(price.value))
  {
    var data := map["amount" := Num(amount), "best_before_date" := Str(bestBefore)];
    if price.Some? then data["price" := Str(floatText(price.value))] else data
  }

  /**
   * `add_to_stock` (lines 218-263): one POST, successful whenever an answer
   * arrives at all, so a 204 `{}` counts as success here.
   */
  method AddToStock(c: Client, productId: nat, amount: real, price: Option<real>,
                    floatText: real -> string, bestBefore: string, reply: Reply<()>)
    returns (ok: bool, error: string, sent: seq<Request<Json>>)
    ensures sent == [Post(c.Url("/stock/products/" + NatText(productId) + "/add"),
                          StockPayload(amount, price, floatText, bestBefore))]
    ensures ok <==> reply.IsNotNone()
    ensures error == (if ok then "" else "Grocy API returned None for stock add")
  {
    var data: Json := map["amount" := Num(amount), "best_before_date" := Str(bestBefore)];
    if price.Some? {
      data := data["price" := Str(floatText(price.value))];
    }
    sent := [Post(c.Url("/stock/products/" + NatText(productId) + "/add"), data)];
    if reply.IsNotNone() {
      ok, error := true, "";
    } else {
      ok, error := false, "Grocy API returned None for stock add";
    }
  }
}
