/**
 * paperless-grocy-magic/app/price_updater.py: a receipt's items are matched
 * against the Grocy products; matched products get the new price and one
 * unit of stock, unmatched items are created as products and stocked, and
 * every outcome is counted, with one error message per failure.
 *
 * The Grocy client is an oracle: `Grocy` holds the product list and what
 * each of the three writing calls answers for its arguments. Every call
 * made is reported in order.
 */
module PriceUpdater {
  import opened Wrappers
  import ReceiptParser
  import GrocyClient
  import opened ProductMatcher

  type Receipt = ReceiptParser.Receipt
  type Receipt? = ReceiptParser.Receipt?

  /** A writing call to the Grocy client. */
  datatype Call =
    | UpdatePrice(productId: nat, price: real, store: Option<string>)
    | AddToStock(productId: nat, amount: real, price: real)
    | CreateProduct(name: string, price: real)

  /**
   * What the Grocy client gives: the result of `get_all_products`, and the
   * `(success, error)` or `(product, error)` pair each writing call returns.
   */
  datatype Grocy = Grocy(
    products: seq<GrocyProduct>,
    updatePrice: (nat, real, Option<string>) -> (bool, string),
    addToStock: (nat, real, real) -> (bool, string),
    createProduct: (string, real) -> (Option<GrocyProduct>, string))

  /** A matched item as the update loop reads it: the product's id and name, and the receipt price. */
  datatype Pending = Pending(productId: nat, name: string, price: real)

  /** What one loop adds up: successes, failures, their error messages and the calls made. */
  datatype Tally = Tally(done: nat, failed: nat, errors: seq<string>, calls: seq<Call>)

  const NoTally: Tally := Tally(0, 0, [], [])

  function Plus(a: Tally, b: Tally): Tally {
    Tally(a.done + b.done, a.failed + b.failed, a.errors + b.errors, a.calls + b.calls)
  }

  // ---------------------------------------------------------------------
  // Step 4: update prices (lines 106-137)
  // ---------------------------------------------------------------------

  /** One pass of the update loop: update the price and, when that worked, add one unit of stock. */
  function UpdateOne(grocy: Grocy, store: Option<string>, p: Pending): (t: Tally)
    ensures t.done + t.failed == 1 && |t.errors| == t.failed
    ensures t.done == 1 <==> grocy.updatePrice(p.productId, p.price, store).0 && grocy.addToStock(p.productId, 1.0, p.price).0
  {
    var updated := grocy.updatePrice(p.productId, p.price, store);
    var first := UpdatePrice(p.productId, p.price, store);
    if !updated.0 then
      Tally(0, 1, ["Failed to update " + p.name + ": " + updated.1], [first])
    else
      var stocked := grocy.addToStock(p.productId, 1.0, p.price);
      var calls := [first, AddToStock(p.productId, 1.0, p.price)];
      if stocked.0 then Tally(1, 0, [], calls)
      else Tally(0, 1, ["Updated " + p.name + " but failed to add to stock: " + stocked.1], calls)
  }

  /** The update loop over the pending items, front to back. */
  function UpdateTally(grocy: Grocy, store: Option<string>, ps: seq<Pending>): Tally {
    if ps == [] then NoTally
    else Plus(UpdateTally(grocy, store, ps[..|ps| - 1]), UpdateOne(grocy, store, ps[|ps| - 1]))
  }

  /** Every matched item is counted once, as updated or as failed, and every failure leaves one message. */
  lemma {:induction false} UpdateTallyBalanced(grocy: Grocy, store: Option<string>, ps: seq<Pending>)
    ensures var t := UpdateTally(grocy, store, ps);
      t.done + t.failed == |ps| && |t.errors| == t.failed
  {
    if ps != [] {
      UpdateTallyBalanced(grocy, store, ps[..|ps| - 1]);
    }
  }

  /** The pending items of a list of matches that all have a product. */
  function PendingOf(matched: seq<ProductMatch>): seq<Pending>
    reads matched
    requires forall i :: 0 <= i < |matched| ==> matched[i].IsMatch()
  {
    if matched == [] then []
    else
      var m := matched[0];
      assert m.IsMatch();
      assert forall i :: 0 <= i < |matched| - 1 ==> matched[1..][i] == matched[i + 1];
      [Pending(m.grocyProduct.value.id, m.grocyProduct.value.name, m.receiptItem.price)] + PendingOf(matched[1..])
  }

  lemma {:induction false} PendingOfAt(matched: seq<ProductMatch>, i: nat)
    requires forall k :: 0 <= k < |matched| ==> matched[k].IsMatch()
    requires i < |matched|
    ensures |PendingOf(matched)| == |matched|
    ensures var m := matched[i];
      PendingOf(matched)[i] == Pending(m.grocyProduct.value.id, m.grocyProduct.value.name, m.receiptItem.price)
  {
    PendingLength(matched);
    if i > 0 {
      assert forall k :: 0 <= k < |matched| - 1 ==> matched[1..][k] == matched[k + 1];
      PendingOfAt(matched[1..], i - 1);
    }
  }

  /** What the loops read off the `i`-th matched item. */
  method PendingAt(matched: seq<ProductMatch>, i: nat) returns (p: Pending)
    requires forall k :: 0 <= k < |matched| ==> matched[k].IsMatch()
    requires i < |matched|
    ensures |PendingOf(matched)| == |matched| && p == PendingOf(matched)[i]
  {
    var m := matched[i];
    p := Pending(m.grocyProduct.value.id, m.grocyProduct.value.name, m.receiptItem.price);
    PendingOfAt(matched, i);
  }

  /** A prefix one longer is the prefix with the next element appended. */
  lemma PrefixStep<T>(s: seq<T>, i: nat)
    requires i < |s|
    ensures s[..i + 1][..i] == s[..i] && s[..i + 1][i] == s[i] && |s[..i + 1]| == i + 1
  {
  }

  /** The body of the loop of lines 106-137 for one matched item. */
  method UpdateItem(grocy: Grocy, store: Option<string>, p: Pending) returns (one: Tally)
    ensures one == UpdateOne(grocy, store, p)
  {
    var success, error := grocy.updatePrice(p.productId, p.price, store).0, grocy.updatePrice(p.productId, p.price, store).1;
    if success {
      var stockSuccess, stockError := grocy.addToStock(p.productId, 1.0, p.price).0, grocy.addToStock(p.productId, 1.0, p.price).1;
      var calls := [UpdatePrice(p.productId, p.price, store), AddToStock(p.productId, 1.0, p.price)];
      if stockSuccess {
        one := Tally(1, 0, [], calls);
      } else {
        one := Tally(0, 1, ["Updated " + p.name + " but failed to add to stock: " + stockError], calls);
      }
    } else {
      one := Tally(0, 1, ["Failed to update " + p.name + ": " + error], [UpdatePrice(p.productId, p.price, store)]);
    }
  }

  /** The loop of lines 106-137 over the matched items. */
  method UpdatePrices(grocy: Grocy, store: Option<string>, matched: seq<ProductMatch>) returns (t: Tally)
    requires forall i :: 0 <= i < |matched| ==> matched[i].IsMatch()
    ensures t == UpdateTally(grocy, store, PendingOf(matched))
  {
    ghost var ps := PendingOf(matched);
    PendingLength(matched);
    t := NoTally;
    var i := 0;
    while i < |matched|
      invariant 0 <= i <= |matched|
      invariant t == UpdateTally(grocy, store, ps[..i])
    {
      var p := PendingAt(matched, i);
      PrefixStep(ps, i);
      var one := UpdateItem(grocy, store, p);
      t := Plus(t, one);
      i := i + 1;
    }
    assert ps[..i] == ps;
  }

  lemma {:induction false} PendingLength(matched: seq<ProductMatch>)
    requires forall i :: 0 <= i < |matched| ==> matched[i].IsMatch()
    ensures |PendingOf(matched)| == |matched|
  {
    if matched != [] {
      PendingLength(matched[1..]);
    }
  }

  // ---------------------------------------------------------------------
  // Step 5: create products (lines 141-175)
  // ---------------------------------------------------------------------

  /** One pass of the create loop, and the product to record in the match when it was created and stocked. */
  datatype Creation = Creation(tally: Tally, product: Option<GrocyProduct>)

  function CreateOne(grocy: Grocy, item: ReceiptItem): (c: Creation)
    ensures c.tally.done + c.tally.failed == 1 && |c.tally.errors| == c.tally.failed
    ensures c.product.Some? <==> c.tally.done == 1
  {
    var created := grocy.createProduct(item.name, item.price);
    var first := CreateProduct(item.name, item.price);
    match created.0 {
      case None =>
        Creation(Tally(0, 1, ["Failed to create " + item.name + ": " + created.1], [first]), None)
      case Some(product) =>
        var stocked := grocy.addToStock(product.id, 1.0, item.price);
        var calls := [first, AddToStock(product.id, 1.0, item.price)];
        if stocked.0 then Creation(Tally(1, 0, [], calls), Some(product))
        else Creation(Tally(0, 1, ["Created " + item.name + " but failed to add to stock: " + stocked.1], calls), None)
    }
  }

  /** The create loop over the unmatched items, front to back. */
  function CreateTally(grocy: Grocy, items: seq<ReceiptItem>): Tally {
    if items == [] then NoTally
    else Plus(CreateTally(grocy, items[..|items| - 1]), CreateOne(grocy, items[|items| - 1]).tally)
  }

  /** Every unmatched item is counted once, as created or as still unmatched, and every failure leaves one message. */
  lemma {:induction false} CreateTallyBalanced(grocy: Grocy, items: seq<ReceiptItem>)
    ensures var t := CreateTally(grocy, items);
      t.done + t.failed == |items| && |t.errors| == t.failed
  {
    if items != [] {
      CreateTallyBalanced(grocy, items[..|items| - 1]);
    }
  }

  /** The position of the first match for `item`. */
  function FirstFor(matches: seq<ProductMatch>, item: ReceiptItem): (r: Option<nat>)
    ensures r.Some? ==> r.value < |matches| && matches[r.value].receiptItem == item
    ensures r.Some? ==> forall j :: 0 <= j < r.value ==> matches[j].receiptItem != item
    ensures r.None? ==> forall j :: 0 <= j < |matches| ==> matches[j].receiptItem != item
  {
    if matches == [] then None
    else if matches[0].receiptItem == item then Some(0)
    else match FirstFor(matches[1..], item) {
      case Some(k) => Some(k + 1)
      case None => None
    }
  }

  /**
   * Lines 161-165: the first match for `item` gets the new product and is
   * marked as created; every other match object stays as it was.
   */
  method MarkCreated(matches: seq<ProductMatch>, item: ReceiptItem, product: GrocyProduct)
    modifies set m | m in matches
    ensures FirstFor(matches, item).Some? ==>
      var m := matches[FirstFor(matches, item).value];
      m.grocyProduct == Some(product) && m.wasCreated
    ensures forall m :: m in matches && (FirstFor(matches, item).None? || m != matches[FirstFor(matches, item).value]) ==>
      m.grocyProduct == old(m.grocyProduct) && m.wasCreated == old(m.wasCreated)
  {
    var i := 0;
    while i < |matches|
      invariant 0 <= i <= |matches|
      invariant forall j :: 0 <= j < i ==> matches[j].receiptItem != item
    {
      if matches[i].receiptItem == item {
        matches[i].grocyProduct := Some(product);
        matches[i].wasCreated := true;
        assert FirstFor(matches, item) == Some(i) by { FirstForIs(matches, item, i); }
        return;
      }
      i := i + 1;
    }
  }

  lemma FirstForIs(matches: seq<ProductMatch>, item: ReceiptItem, i: nat)
    requires i < |matches| && matches[i].receiptItem == item
    requires forall j :: 0 <= j < i ==> matches[j].receiptItem != item
    ensures FirstFor(matches, item) == Some(i)
  {
    var r := FirstFor(matches, item);
    if r.Some? {
      assert !(r.value < i) && !(i < r.value);
    }
  }

  /**
   * The match object the create loop records a product in: the first match
   * of an unmatched item, provided Grocy created and stocked that item.
   */
  predicate CreatedFor(grocy: Grocy, unmatched: seq<ReceiptItem>, matches: seq<ProductMatch>, m: ProductMatch) {
    && m.receiptItem in unmatched && CreateOne(grocy, m.receiptItem).product.Some?
    && FirstFor(matches, m.receiptItem).Some? && matches[FirstFor(matches, m.receiptItem).value] == m
  }

  /** One more unmatched item adds exactly its own first match, when it was created and stocked. */
  lemma CreatedForSnoc(grocy: Grocy, unmatched: seq<ReceiptItem>, item: ReceiptItem, matches: seq<ProductMatch>, m: ProductMatch)
    ensures CreatedFor(grocy, unmatched + [item], matches, m) <==>
      || CreatedFor(grocy, unmatched, matches, m)
      || (&& m.receiptItem == item && CreateOne(grocy, item).product.Some?
          && FirstFor(matches, item).Some? && matches[FirstFor(matches, item).value] == m)
  {
  }

  /** The body of the loop of lines 141-175 for one unmatched item, up to recording the new product. */
  method CreateItem(grocy: Grocy, item: ReceiptItem) returns (one: Creation)
    ensures one == CreateOne(grocy, item)
  {
    var newProduct, error := grocy.createProduct(item.name, item.price).0, grocy.createProduct(item.name, item.price).1;
    if newProduct.Some? {
      var stockSuccess, stockError := grocy.addToStock(newProduct.value.id, 1.0, item.price).0,
                                      grocy.addToStock(newProduct.value.id, 1.0, item.price).1;
      var calls := [CreateProduct(item.name, item.price), AddToStock(newProduct.value.id, 1.0, item.price)];
      if stockSuccess {
        one := Creation(Tally(1, 0, [], calls), newProduct);
      } else {
        one := Creation(Tally(0, 1, ["Created " + item.name + " but failed to add to stock: " + stockError], calls), None);
      }
    } else {
      one := Creation(Tally(0, 1, ["Failed to create " + item.name + ": " + error], [CreateProduct(item.name, item.price)]), None);
    }
  }

  /**
   * The loop of lines 141-175 over the unmatched items. A match object gets
   * the product Grocy created for its item, and is marked as created, exactly
   * when `CreatedFor` holds; every other match keeps its product and flag.
   */
  method CreateProducts(grocy: Grocy, unmatched: seq<ReceiptItem>, matches: seq<ProductMatch>) returns (t: Tally)
    modifies set m | m in matches
    ensures t == CreateTally(grocy, unmatched)
    ensures forall m :: m in matches && CreatedFor(grocy, unmatched, matches, m) ==>
      m.grocyProduct == CreateOne(grocy, m.receiptItem).product && m.wasCreated
    ensures forall m :: m in matches && !CreatedFor(grocy, unmatched, matches, m) ==>
      m.grocyProduct == old(m.grocyProduct) && m.wasCreated == old(m.wasCreated)
  {
    t := NoTally;
    var i := 0;
    while i < |unmatched|
      invariant 0 <= i <= |unmatched|
      invariant t == CreateTally(grocy, unmatched[..i])
      invariant forall m :: m in matches && CreatedFor(grocy, unmatched[..i], matches, m) ==>
        m.grocyProduct == CreateOne(grocy, m.receiptItem).product && m.wasCreated
      invariant forall m :: m in matches && !CreatedFor(grocy, unmatched[..i], matches, m) ==>
        m.grocyProduct == old(m.grocyProduct) && m.wasCreated == old(m.wasCreated)
    {
      var item := unmatched[i];
      assert unmatched[..i + 1][..i] == unmatched[..i];
      assert unmatched[..i + 1] == unmatched[..i] + [item];
      var one := CreateItem(grocy, item);
      t := Plus(t, one.tally);
      if one.product.Some? {
        MarkCreated(matches, item, one.product.value);
      }
      forall m | m in matches {
        CreatedForSnoc(grocy, unmatched[..i], item, matches, m);
      }
      i := i + 1;
    }
    assert unmatched[..i] == unmatched;
  }

  // ---------------------------------------------------------------------
  // The matched and unmatched items as values
  // ---------------------------------------------------------------------

  predicate AllSafe(threshold: int, fuzz: Fuzz, items: seq<ReceiptItem>, products: seq<GrocyProduct>) {
    forall i :: 0 <= i < |items| ==> NoCrash(threshold, fuzz, items[i].name, products)
  }

  /** The items `match_all` gives a product, as the update loop reads them. */
  function MatchedPending(threshold: int, fuzz: Fuzz, items: seq<ReceiptItem>, products: seq<GrocyProduct>): seq<Pending>
    requires AllSafe(threshold, fuzz, items, products)
  {
    if items == [] then []
    else
      assert AllSafe(threshold, fuzz, items[1..], products) by {
        forall i | 0 <= i < |items| - 1 ensures NoCrash(threshold, fuzz, items[1..][i].name, products) {
          assert items[1..][i] == items[i + 1];
        }
      }
      (match MatchOutcome(threshold, fuzz, items[0].name, products).0 {
        case Some(p) => [Pending(p.id, p.name, items[0].price)]
        case None => []
      }) + MatchedPending(threshold, fuzz, items[1..], products)
  }

  /** The items `match_all` finds no product for. */
  function NewItems(threshold: int, fuzz: Fuzz, items: seq<ReceiptItem>, products: seq<GrocyProduct>): seq<ReceiptItem>
    requires AllSafe(threshold, fuzz, items, products)
  {
    if items == [] then []
    else
      assert AllSafe(threshold, fuzz, items[1..], products) by {
        forall i | 0 <= i < |items| - 1 ensures NoCrash(threshold, fuzz, items[1..][i].name, products) {
          assert items[1..][i] == items[i + 1];
        }
      }
      (if MatchOutcome(threshold, fuzz, items[0].name, products).0.None? then [items[0]] else [])
      + NewItems(threshold, fuzz, items[1..], products)
  }

  /** Every item is either matched or new. */
  lemma {:induction false} ItemsSplit(threshold: int, fuzz: Fuzz, items: seq<ReceiptItem>, products: seq<GrocyProduct>)
    requires AllSafe(threshold, fuzz, items, products)
    ensures |MatchedPending(threshold, fuzz, items, products)| + |NewItems(threshold, fuzz, items, products)| == |items|
  {
    if items != [] {
      assert AllSafe(threshold, fuzz, items[1..], products) by {
        forall i | 0 <= i < |items| - 1 ensures NoCrash(threshold, fuzz, items[1..][i].name, products) {
          assert items[1..][i] == items[i + 1];
        }
      }
      ItemsSplit(threshold, fuzz, items[1..], products);
    }
  }

  /** What `match_all` produced, as its contract states it. */
  predicate MatchedAs(threshold: int, fuzz: Fuzz, items: seq<ReceiptItem>, products: seq<GrocyProduct>, matches: seq<ProductMatch>)
    reads matches
  {
    && AllSafe(threshold, fuzz, items, products)
    && |matches| == |items|
    && forall i :: 0 <= i < |items| ==>
      matches[i].receiptItem == items[i]
      && (matches[i].grocyProduct, matches[i].score) == MatchOutcome(threshold, fuzz, items[i].name, products)
  }

  /** The matched and unmatched lists of fresh matches are the matched and new items. */
  lemma {:induction false} PartitionOfMatches(threshold: int, fuzz: Fuzz, items: seq<ReceiptItem>,
                                              products: seq<GrocyProduct>, matches: seq<ProductMatch>)
    requires MatchedAs(threshold, fuzz, items, products, matches)
    ensures forall i :: 0 <= i < |Matched(matches)| ==> Matched(matches)[i].IsMatch()
    ensures PendingOf(Matched(matches)) == MatchedPending(threshold, fuzz, items, products)
    ensures Unmatched(matches) == NewItems(threshold, fuzz, items, products)
  {
    forall i | 0 <= i < |Matched(matches)| ensures Matched(matches)[i].IsMatch() {
      MatchedMembers(matches, Matched(matches)[i]);
    }
    if items != [] {
      assert MatchedAs(threshold, fuzz, items[1..], products, matches[1..]) by {
        forall i | 0 <= i < |items| - 1
          ensures NoCrash(threshold, fuzz, items[1..][i].name, products)
          ensures matches[1..][i].receiptItem == items[1..][i]
          ensures (matches[1..][i].grocyProduct, matches[1..][i].score) == MatchOutcome(threshold, fuzz, items[1..][i].name, products)
        {
          assert items[1..][i] == items[i + 1];
          assert matches[1..][i] == matches[i + 1];
        }
      }
      PartitionOfMatches(threshold, fuzz, items[1..], products, matches[1..]);
      var m := matches[0];
      assert m.receiptItem == items[0];
      if m.IsMatch() {
        assert Matched(matches) == [m] + Matched(matches[1..]);
      } else {
        assert Matched(matches) == Matched(matches[1..]);
      }
    }
  }

  /** Step 3 (lines 94-103): match every item, then split the matches into matched and unmatched. */
  method MatchReceipt(threshold: int, fuzz: Fuzz, items: seq<ReceiptItem>, products: seq<GrocyProduct>)
    returns (matches: seq<ProductMatch>, matched: seq<ProductMatch>, unmatched: seq<ReceiptItem>)
    requires AllSafe(threshold, fuzz, items, products)
    ensures MatchedAs(threshold, fuzz, items, products, matches)
    ensures forall m :: m in matches ==> fresh(m)
    ensures forall i, j :: 0 <= i < j < |matches| ==> matches[i] != matches[j]
    ensures forall i :: 0 <= i < |matches| ==> !matches[i].wasCreated
    ensures matched == Matched(matches) && unmatched == Unmatched(matches)
    ensures forall i :: 0 <= i < |matched| ==> matched[i].IsMatch()
    ensures PendingOf(matched) == MatchedPending(threshold, fuzz, items, products)
    ensures unmatched == NewItems(threshold, fuzz, items, products)
  {
    matches := MatchAll(threshold, fuzz, items, products);
    matched := Matched(matches);
    unmatched := Unmatched(matches);
    PartitionOfMatches(threshold, fuzz, items, products, matches);
  }

  // ---------------------------------------------------------------------
  // `PriceUpdateResult` and `process_receipt_text`
  // ---------------------------------------------------------------------

  /** The success flag, the four counters and the error list of a `PriceUpdateResult`. */
  datatype Summary = Summary(success: bool, updated: nat, failed: nat, unmatched: nat, created: nat, errors: seq<string>)

  /** A run that stopped early: nothing succeeded or was counted, and one error. */
  function Aborted(error: string): Summary {
    Summary(false, 0, 0, 0, 0, [error])
  }

  /** `PriceUpdateResult` (lines 12-23). */
  class PriceUpdateResult {
    var success: bool
    var receipt: Receipt?
    var matches: seq<ProductMatch>
    var updatedCount: nat
    var failedCount: nat
    var unmatchedCount: nat
    var createdCount: nat
    var errors: seq<string>

    constructor ()
      ensures View() == Summary(false, 0, 0, 0, 0, [])
      ensures receipt == null && matches == []
    {
      success, receipt, matches := false, null, [];
      updatedCount, failedCount, unmatchedCount, createdCount := 0, 0, 0, 0;
      errors := [];
    }

    function View(): Summary
      reads this
    {
      Summary(success, updatedCount, failedCount, unmatchedCount, createdCount, errors)
    }

    /** Stores the matches and the outcome the run arrived at. */
    method Record(matches: seq<ProductMatch>, outcome: Summary)
      modifies this
      ensures this.matches == matches && View() == outcome && receipt == old(receipt)
    {
      this.matches := matches;
      success, updatedCount, failedCount := outcome.success, outcome.updated, outcome.failed;
      unmatchedCount, createdCount, errors := outcome.unmatched, outcome.created, outcome.errors;
    }
  }

  /** `parse_receipt` gives no receipt, or one whose items `match_all` can match without failing. */
  predicate Matchable(text: string, threshold: int, fuzz: Fuzz, products: seq<GrocyProduct>) {
    var spec := ReceiptParser.ParseSpec(text);
    spec.Some? ==> forall k :: 0 <= k < |spec.value.items| ==> NoCrash(threshold, fuzz, spec.value.items[k].name, products)
  }

  /** The `i`-th match is the one the create loop records a product in. */
  predicate CreatedAt(grocy: Grocy, unmatched: seq<ReceiptItem>, matches: seq<ProductMatch>, i: nat)
    requires i < |matches|
  {
    && matches[i].receiptItem in unmatched && CreateOne(grocy, matches[i].receiptItem).product.Some?
    && FirstFor(matches, matches[i].receiptItem) == Some(i)
  }

  /** For distinct match objects, `CreatedFor` picks out the match at the position `FirstFor` finds. */
  lemma CreatedForAt(grocy: Grocy, unmatched: seq<ReceiptItem>, matches: seq<ProductMatch>, i: nat)
    requires i < |matches|
    requires forall j, k :: 0 <= j < k < |matches| ==> matches[j] != matches[k]
    ensures CreatedFor(grocy, unmatched, matches, matches[i]) <==> CreatedAt(grocy, unmatched, matches, i)
  {
    var r := FirstFor(matches, matches[i].receiptItem);
    assert r.Some?;
    if matches[r.value] == matches[i] {
      assert !(r.value < i) && !(i < r.value);
    }
  }

  /**
   * The matches after a run: one per item, in order, with the score of
   * matching. A match that `CreatedAt` picks holds the product Grocy created
   * for its item and is marked as created; every other one holds the
   * product matching found and is not marked.
   */
  predicate MatchesAfterRun(grocy: Grocy, threshold: int, fuzz: Fuzz, items: seq<ReceiptItem>, matches: seq<ProductMatch>)
    reads matches
    requires AllSafe(threshold, fuzz, items, grocy.products)
  {
    && |matches| == |items|
    && forall i :: 0 <= i < |items| ==>
      && matches[i].receiptItem == items[i]
      && matches[i].score == MatchOutcome(threshold, fuzz, items[i].name, grocy.products).1
      && (CreatedAt(grocy, NewItems(threshold, fuzz, items, grocy.products), matches, i) ==>
            matches[i].grocyProduct == CreateOne(grocy, items[i]).product && matches[i].wasCreated)
      && (!CreatedAt(grocy, NewItems(threshold, fuzz, items, grocy.products), matches, i) ==>
            matches[i].grocyProduct == MatchOutcome(threshold, fuzz, items[i].name, grocy.products).0 && !matches[i].wasCreated)
  }

  /** What steps 3 to 5 of `process_receipt_text` (lines 94-186) add up to on the receipt's items. */
  function RunSummary(grocy: Grocy, threshold: int, fuzz: Fuzz, items: seq<ReceiptItem>, store: Option<string>): Summary
    requires AllSafe(threshold, fuzz, items, grocy.products)
  {
    var u := UpdateTally(grocy, store, MatchedPending(threshold, fuzz, items, grocy.products));
    var c := CreateTally(grocy, NewItems(threshold, fuzz, items, grocy.products));
    Summary(u.done > 0 || c.done > 0, u.done, u.failed, c.failed, c.done, u.errors + c.errors)
  }

  /** The writing calls of those steps: the updates of the matched items, then the creations. */
  function RunCalls(grocy: Grocy, threshold: int, fuzz: Fuzz, items: seq<ReceiptItem>, store: Option<string>): seq<Call>
    requires AllSafe(threshold, fuzz, items, grocy.products)
  {
    UpdateTally(grocy, store, MatchedPending(threshold, fuzz, items, grocy.products)).calls
    + CreateTally(grocy, NewItems(threshold, fuzz, items, grocy.products)).calls
  }

  /**
   * Every item is counted exactly once: a matched one as updated or
   * failed, a new one as created or unmatched. Every failure leaves one
   * message, and the run succeeds when anything was updated or created.
   */
  lemma RunSummaryBalanced(grocy: Grocy, threshold: int, fuzz: Fuzz, items: seq<ReceiptItem>, store: Option<string>)
    requires AllSafe(threshold, fuzz, items, grocy.products)
    ensures var s := RunSummary(grocy, threshold, fuzz, items, store);
      && s.updated + s.failed == |MatchedPending(threshold, fuzz, items, grocy.products)|
      && s.created + s.unmatched == |NewItems(threshold, fuzz, items, grocy.products)|
      && s.updated + s.failed + s.created + s.unmatched == |items|
      && |s.errors| == s.failed + s.unmatched
      && (s.success <==> s.updated > 0 || s.created > 0)
  {
    UpdateTallyBalanced(grocy, store, MatchedPending(threshold, fuzz, items, grocy.products));
    CreateTallyBalanced(grocy, NewItems(threshold, fuzz, items, grocy.products));
    ItemsSplit(threshold, fuzz, items, grocy.products);
  }

  /**
   * `process_receipt_text` (lines 58-194). A receipt that does not parse, or
   * an empty product list, ends the run with one error and nothing counted
   * or written. Otherwise the outcome and the calls are those of
   * `RunSummary` and `RunCalls` on the parsed items, and a match changes
   * after matching only by being marked as created for its item.
   */
  method ProcessReceiptText(grocy: Grocy, threshold: int, fuzz: Fuzz, text: string, storeHint: Option<string>)
    returns (result: PriceUpdateResult, calls: seq<Call>)
    requires Matchable(text, threshold, fuzz, grocy.products)
    ensures fresh(result)
    ensures ReceiptParser.ParseSpec(text).None? ==>
      && result.receipt == null && result.matches == []
      && result.View() == Aborted("Could not parse receipt") && calls == []
    ensures ReceiptParser.ParseSpec(text).Some? ==>
      result.receipt != null && ReceiptParser.Snapshot(result.receipt) == ReceiptParser.ParseSpec(text)
    ensures ReceiptParser.ParseSpec(text).Some? && grocy.products == [] ==>
      && result.matches == []
      && result.View() == Aborted("Could not fetch Grocy products") && calls == []
    ensures ReceiptParser.ParseSpec(text).Some? && grocy.products != [] ==>
      && result.receipt != null
      && AllSafe(threshold, fuzz, result.receipt.items, grocy.products)
      && result.View() == RunSummary(grocy, threshold, fuzz, result.receipt.items, result.receipt.store)
      && calls == RunCalls(grocy, threshold, fuzz, result.receipt.items, result.receipt.store)
      && MatchesAfterRun(grocy, threshold, fuzz, result.receipt.items, result.matches)
  {
    result := new PriceUpdateResult();
    calls := [];
    var receipt := ReceiptParser.ParseReceipt(text, storeHint);
    if receipt == null {
      result.errors := result.errors + ["Could not parse receipt"];
      return;
    }
    result.receipt := receipt;
    if grocy.products == [] {
      result.errors := result.errors + ["Could not fetch Grocy products"];
      return;
    }
    var items, store := receipt.items, receipt.store;
    var matches, u, c := Reconcile(grocy, threshold, fuzz, items, store);
    result.Record(matches, Summary(u.done > 0 || c.done > 0, u.done, u.failed, c.failed, c.done, u.errors + c.errors));
    calls := u.calls + c.calls;
  }

  /** Steps 3 to 5 (lines 94-186) on the receipt's items: match, update the matched, create the new. */
  method Reconcile(grocy: Grocy, threshold: int, fuzz: Fuzz, items: seq<ReceiptItem>, store: Option<string>)
    returns (matches: seq<ProductMatch>, u: Tally, c: Tally)
    requires AllSafe(threshold, fuzz, items, grocy.products)
    ensures forall m :: m in matches ==> fresh(m)
    ensures u == UpdateTally(grocy, store, MatchedPending(threshold, fuzz, items, grocy.products))
    ensures c == CreateTally(grocy, NewItems(threshold, fuzz, items, grocy.products))
    ensures MatchesAfterRun(grocy, threshold, fuzz, items, matches)
  {
    var matched, unmatched;
    matches, matched, unmatched := MatchReceipt(threshold, fuzz, items, grocy.products);
    u := UpdatePrices(grocy, store, matched);
    assert MatchedAs(threshold, fuzz, items, grocy.products, matches);
    assert forall m :: m in matches ==> fresh(m);
    c := CreateProducts(grocy, unmatched, matches);
    forall i | 0 <= i < |matches| {
      CreatedForAt(grocy, unmatched, matches, i);
    }
  }

  // ---------------------------------------------------------------------
  // `process_receipt`
  // ---------------------------------------------------------------------

  /** The number of elements in the `(success, error)` pair `update_product_price` returns. */
  const PairLength: nat := 2

  /** Python truthiness of that pair: a tuple is true when it is not empty, whatever its elements. */
  predicate PairTruthy(reply: (bool, string)) {
    PairLength != 0
  }

  /** The counts of the loop of lines 222-232 as written, which tests the pair itself. */
  function CountsAsWritten(grocy: Grocy, store: Option<string>, ps: seq<Pending>): (int, int) {
    if ps == [] then (0, 0)
    else
      var before := CountsAsWritten(grocy, store, ps[..|ps| - 1]);
      var p := ps[|ps| - 1];
      if PairTruthy(grocy.updatePrice(p.productId, p.price, store)) then (before.0 + 1, before.1) else (before.0, before.1 + 1)
  }

  /** The counts the loop evidently means: by the pair's `success` part. */
  function Counts(grocy: Grocy, store: Option<string>, ps: seq<Pending>): (nat, nat) {
    if ps == [] then (0, 0)
    else
      var before := Counts(grocy, store, ps[..|ps| - 1]);
      var p := ps[|ps| - 1];
      if grocy.updatePrice(p.productId, p.price, store).0 then (before.0 + 1, before.1) else (before.0, before.1 + 1)
  }

  /** As written, every matched item counts as updated and none as failed, whatever Grocy answers. */
  lemma {:induction false} CountsAsWrittenAllUpdated(grocy: Grocy, store: Option<string>, ps: seq<Pending>)
    ensures CountsAsWritten(grocy, store, ps) == (|ps|, 0)
  {
    if ps != [] {
      CountsAsWrittenAllUpdated(grocy, store, ps[..|ps| - 1]);
    }
  }

  /** The number of pending items whose price update Grocy accepts. */
  function Accepted(grocy: Grocy, store: Option<string>, ps: seq<Pending>): nat {
    if ps == [] then 0
    else Accepted(grocy, store, ps[..|ps| - 1])
         + (var p := ps[|ps| - 1]; if grocy.updatePrice(p.productId, p.price, store).0 then 1 else 0)
  }

  /** Corrected, the items Grocy accepts are counted as updated and the rest as failed. */
  lemma {:induction false} CountsSplit(grocy: Grocy, store: Option<string>, ps: seq<Pending>)
    ensures Counts(grocy, store, ps) == (Accepted(grocy, store, ps), |ps| - Accepted(grocy, store, ps))
    ensures Accepted(grocy, store, ps) <= |ps|
  {
    if ps != [] {
      CountsSplit(grocy, store, ps[..|ps| - 1]);
    }
  }

  /** One product whose update Grocy refuses: counted as updated as written, as failed when corrected. */
  lemma RefusedUpdateCounted(grocy: Grocy, store: Option<string>, p: Pending)
    requires !grocy.updatePrice(p.productId, p.price, store).0
    ensures CountsAsWritten(grocy, store, [p]) == (1, 0)
    ensures Counts(grocy, store, [p]) == (0, 1)
  {
    assert [p][..0] == [];
  }

  /** The outcome of `process_receipt` as written: the counts of `CountsAsWritten`, no creations and no errors. */
  function ReceiptSummaryAsWritten(grocy: Grocy, threshold: int, fuzz: Fuzz, items: seq<ReceiptItem>, store: Option<string>): Summary
    requires AllSafe(threshold, fuzz, items, grocy.products)
  {
    var ps := MatchedPending(threshold, fuzz, items, grocy.products);
    CountsAsWrittenAllUpdated(grocy, store, ps);
    var n := CountsAsWritten(grocy, store, ps);
    Summary(n.0 > 0, n.0, n.1, |NewItems(threshold, fuzz, items, grocy.products)|, 0, [])
  }

  /** The outcome of `process_receipt` with the pair's `success` part as the condition. */
  function ReceiptSummary(grocy: Grocy, threshold: int, fuzz: Fuzz, items: seq<ReceiptItem>, store: Option<string>): Summary
    requires AllSafe(threshold, fuzz, items, grocy.products)
  {
    var n := Counts(grocy, store, MatchedPending(threshold, fuzz, items, grocy.products));
    Summary(n.0 > 0, n.0, n.1, |NewItems(threshold, fuzz, items, grocy.products)|, 0, [])
  }

  /** As written, every matched item counts as updated, none as failed, and the run succeeds when any item matched. */
  lemma ReceiptSummaryAsWrittenAllUpdated(grocy: Grocy, threshold: int, fuzz: Fuzz, items: seq<ReceiptItem>, store: Option<string>)
    requires AllSafe(threshold, fuzz, items, grocy.products)
    ensures var s := ReceiptSummaryAsWritten(grocy, threshold, fuzz, items, store);
      && s.updated == |MatchedPending(threshold, fuzz, items, grocy.products)| && s.failed == 0
      && (s.success <==> MatchedPending(threshold, fuzz, items, grocy.products) != [])
  {
    CountsAsWrittenAllUpdated(grocy, store, MatchedPending(threshold, fuzz, items, grocy.products));
  }

  /** Corrected, the updated count is the number of accepted updates and every other matched item counts as failed. */
  lemma ReceiptSummaryCounts(grocy: Grocy, threshold: int, fuzz: Fuzz, items: seq<ReceiptItem>, store: Option<string>)
    requires AllSafe(threshold, fuzz, items, grocy.products)
    ensures var s := ReceiptSummary(grocy, threshold, fuzz, items, store);
      var ps := MatchedPending(threshold, fuzz, items, grocy.products);
      && s.updated == Accepted(grocy, store, ps)
      && s.updated + s.failed == |ps|
      && (s.success <==> Accepted(grocy, store, ps) > 0)
  {
    CountsSplit(grocy, store, MatchedPending(threshold, fuzz, items, grocy.products));
  }

  /** The matching and update loop of `process_receipt` as written (lines 215-235). */
  method UpdateMatchedAsWritten(grocy: Grocy, threshold: int, fuzz: Fuzz, items: seq<ReceiptItem>, store: Option<string>)
    returns (matches: seq<ProductMatch>, outcome: Summary, calls: seq<Call>)
    requires AllSafe(threshold, fuzz, items, grocy.products)
    ensures forall m :: m in matches ==> fresh(m)
    ensures MatchedAs(threshold, fuzz, items, grocy.products, matches)
    ensures outcome == ReceiptSummaryAsWritten(grocy, threshold, fuzz, items, store)
    ensures calls == UpdateCalls(store, MatchedPending(threshold, fuzz, items, grocy.products))
  {
    var matched, unmatched;
    matches, matched, unmatched := MatchReceipt(threshold, fuzz, items, grocy.products);
    var updated, failed;
    updated, failed, calls := CountUpdatesAsWritten(grocy, store, matched);
    CountsAsWrittenAllUpdated(grocy, store, PendingOf(matched));
    outcome := Summary(updated > 0, updated, failed, |unmatched|, 0, []);
  }

  /** The same with the pair's `success` part as the condition. */
  method UpdateMatched(grocy: Grocy, threshold: int, fuzz: Fuzz, items: seq<ReceiptItem>, store: Option<string>)
    returns (matches: seq<ProductMatch>, outcome: Summary, calls: seq<Call>)
    requires AllSafe(threshold, fuzz, items, grocy.products)
    ensures forall m :: m in matches ==> fresh(m)
    ensures MatchedAs(threshold, fuzz, items, grocy.products, matches)
    ensures outcome == ReceiptSummary(grocy, threshold, fuzz, items, store)
    ensures calls == UpdateCalls(store, MatchedPending(threshold, fuzz, items, grocy.products))
  {
    var matched, unmatched;
    matches, matched, unmatched := MatchReceipt(threshold, fuzz, items, grocy.products);
    var updated, failed;
    updated, failed, calls := CountUpdates(grocy, store, matched);
    outcome := Summary(updated > 0, updated, failed, |unmatched|, 0, []);
  }

  /**
   * `process_receipt` (lines 196-237) as written: an empty product list
   * ends the run with one error; otherwise the matches are those of
   * `match_all`, one price update is sent per matched item, and the
   * outcome is `ReceiptSummaryAsWritten`.
   */
  method ProcessReceipt(grocy: Grocy, threshold: int, fuzz: Fuzz, receipt: Receipt)
    returns (result: PriceUpdateResult, calls: seq<Call>)
    requires AllSafe(threshold, fuzz, receipt.items, grocy.products)
    ensures fresh(result) && result.receipt == receipt
    ensures grocy.products == [] ==>
      result.matches == [] && result.View() == Aborted("Could not fetch Grocy products") && calls == []
    ensures grocy.products != [] ==>
      && MatchedAs(threshold, fuzz, receipt.items, grocy.products, result.matches)
      && result.View() == ReceiptSummaryAsWritten(grocy, threshold, fuzz, receipt.items, receipt.store)
      && calls == UpdateCalls(receipt.store, MatchedPending(threshold, fuzz, receipt.items, grocy.products))
  {
    result := new PriceUpdateResult();
    result.receipt := receipt;
    calls := [];
    if grocy.products == [] {
      result.errors := result.errors + ["Could not fetch Grocy products"];
      return;
    }
    var matches, outcome;
    matches, outcome, calls := UpdateMatchedAsWritten(grocy, threshold, fuzz, receipt.items, receipt.store);
    result.Record(matches, outcome);
  }

  /** `process_receipt` with the pair's `success` part as the condition, as the loop evidently intends. */
  method ProcessReceiptCorrected(grocy: Grocy, threshold: int, fuzz: Fuzz, receipt: Receipt)
    returns (result: PriceUpdateResult, calls: seq<Call>)
    requires AllSafe(threshold, fuzz, receipt.items, grocy.products)
    ensures fresh(result) && result.receipt == receipt
    ensures grocy.products == [] ==>
      result.matches == [] && result.View() == Aborted("Could not fetch Grocy products") && calls == []
    ensures grocy.products != [] ==>
      && MatchedAs(threshold, fuzz, receipt.items, grocy.products, result.matches)
      && result.View() == ReceiptSummary(grocy, threshold, fuzz, receipt.items, receipt.store)
      && calls == UpdateCalls(receipt.store, MatchedPending(threshold, fuzz, receipt.items, grocy.products))
  {
    result := new PriceUpdateResult();
    result.receipt := receipt;
    calls := [];
    if grocy.products == [] {
      result.errors := result.errors + ["Could not fetch Grocy products"];
      return;
    }
    var matches, outcome;
    matches, outcome, calls := UpdateMatched(grocy, threshold, fuzz, receipt.items, receipt.store);
    result.Record(matches, outcome);
  }

  /** The price updates `process_receipt` sends, one per matched item. */
  function UpdateCalls(store: Option<string>, ps: seq<Pending>): (r: seq<Call>)
    ensures |r| == |ps|
  {
    if ps == [] then []
    else UpdateCalls(store, ps[..|ps| - 1]) + [UpdatePrice(ps[|ps| - 1].productId, ps[|ps| - 1].price, store)]
  }

  /** One price update per matched item, in order. */
  lemma {:induction false} UpdateCallsAt(store: Option<string>, ps: seq<Pending>, i: nat)
    requires i < |ps|
    ensures UpdateCalls(store, ps)[i] == UpdatePrice(ps[i].productId, ps[i].price, store)
  {
    if i < |ps| - 1 {
      UpdateCallsAt(store, ps[..|ps| - 1], i);
    }
  }

  /** The loop of lines 222-232 as written, which counts an update as done when the returned pair is true. */
  method CountUpdatesAsWritten(grocy: Grocy, store: Option<string>, matched: seq<ProductMatch>)
    returns (updated: int, failed: int, calls: seq<Call>)
    requires forall i :: 0 <= i < |matched| ==> matched[i].IsMatch()
    ensures (updated, failed) == CountsAsWritten(grocy, store, PendingOf(matched))
    ensures calls == UpdateCalls(store, PendingOf(matched))
  {
    ghost var ps := PendingOf(matched);
    PendingLength(matched);
    updated, failed, calls := 0, 0, [];
    var i := 0;
    while i < |matched|
      invariant 0 <= i <= |matched|
      invariant (updated, failed) == CountsAsWritten(grocy, store, ps[..i])
      invariant calls == UpdateCalls(store, ps[..i])
    {
      var p := PendingAt(matched, i);
      PrefixStep(ps, i);
      var success := grocy.updatePrice(p.productId, p.price, store);
      calls := calls + [UpdatePrice(p.productId, p.price, store)];
      if PairTruthy(success) {
        updated := updated + 1;
      } else {
        failed := failed + 1;
      }
      i := i + 1;
    }
    assert ps[..i] == ps;
  }

  /** The loop of lines 222-232 with the pair's `success` part as the condition. */
  method CountUpdates(grocy: Grocy, store: Option<string>, matched: seq<ProductMatch>)
    returns (updated: nat, failed: nat, calls: seq<Call>)
    requires forall i :: 0 <= i < |matched| ==> matched[i].IsMatch()
    ensures (updated, failed) == Counts(grocy, store, PendingOf(matched))
    ensures calls == UpdateCalls(store, PendingOf(matched))
  {
    ghost var ps := PendingOf(matched);
    PendingLength(matched);
    updated, failed, calls := 0, 0, [];
    var i := 0;
    while i < |matched|
      invariant 0 <= i <= |matched|
      invariant (updated, failed) == Counts(grocy, store, ps[..i])
      invariant calls == UpdateCalls(store, ps[..i])
    {
      var p := PendingAt(matched, i);
      PrefixStep(ps, i);
      var success := grocy.updatePrice(p.productId, p.price, store).0;
      calls := calls + [UpdatePrice(p.productId, p.price, store)];
      if success {
        updated := updated + 1;
      } else {
        failed := failed + 1;
      }
      i := i + 1;
    }
    assert ps[..i] == ps;
  }
}
