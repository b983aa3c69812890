/**
 * `handle_barcode` and `manual_scan` of barcodebuddy/app/main.py: the add or
 * consume mode, the quantity collected from quantity barcodes, the stock
 * amount, the status of every scan and the capped `recent_scans` list.
 *
 * The Grocy and Open Food Facts calls are oracles: `Answers` holds what each
 * of them returns for the barcode being handled, and every call made is
 * reported in order as a `Call`.
 */
module BarcodeApp {
  import opened Wrappers
  import opened Text
  import opened Decimal
  import opened ScanLog

  const AddBarcode: string := "BBUDDY-ADD"
  const ConsumeBarcode: string := "BBUDDY-CONSUME"
  const QuantityPrefix: string := "BBUDDY-Q-"

  datatype Mode = Add | Consume

  /** The `status` of a scan result: `mode`, `quantity`, `error`, `success`, `warning`, `not_found`, `no_grocy`. */
  datatype Status = ModeSet | QuantitySet | Error | Success | Warning | NotFound | NoGrocy

  /** The `message` of a scan result, by the values it is formatted from. */
  datatype Message =
    | ModeAdd
    | ModeConsume
    | QuantityTotal(total: real)
    | InvalidQuantity
    | InvalidProductData
    | Stocked(mode: Mode, name: string, amount: real)
    | StockFailed(mode: Mode, name: string)
    | ProductInfoError
    | CreatedAndStocked(mode: Mode, name: string, amount: real)
    | CreatedStockFailed(mode: Mode, name: string)
    | CreatedBarcodeFailed(name: string)
    | CreateFailed
    | NotFoundAnywhere
    | NoGrocyConfigured

  /** One entry of `recent_scans` (the timestamp is left out). */
  datatype ScanResult = ScanResult(barcode: string, status: Status, message: Message)

  /** A call to the Grocy client or to the Open Food Facts client. */
  datatype Call =
    | FindByBarcode(barcode: string)
    | GetProductInfo(id: int)
    | AddProduct(id: int, amount: real)
    | ConsumeProduct(id: int, amount: real)
    | LookupOpenFoodFacts(barcode: string)
    | CreateProduct(name: string, description: string)
    | AddBarcodeToProduct(id: int, barcode: string)

  /**
   * What `find_product_by_barcode` returns: nothing usable (`None` or an
   * empty body), the nested `{'product': {...}}` shape, or another dict read
   * through `product_id` and `id`. Ids and names may be missing.
   */
  datatype BarcodeReply =
    | NoProduct
    | Nested(nestedId: Option<int>, nestedName: Option<string>)
    | Flat(productId: Option<int>, id: Option<int>)

  /** What `get_product_info` returns: nothing usable (`None` or `{}`), or a product with an optional name. */
  datatype InfoReply = NoInfo | Info(name: Option<string>)

  datatype OffProduct = OffProduct(name: string, brand: string, quantity: string)

  /** The answers of the clients for the barcode being handled. */
  datatype Answers = Answers(
    byBarcode: BarcodeReply,
    info: InfoReply,
    stockOk: bool,
    off: Option<OffProduct>,
    createdId: Option<int>,
    barcodeAdded: bool)

  /** Python truthiness of an optional id: `None` and `0` are false. */
  predicate Truthy(id: Option<int>) {
    id.Some? && id.value != 0
  }

  /** The mode and quantity between two scans. */
  datatype State = State(mode: Mode, quantity: real)

  /** The state after a scan, what becomes `recent_scans[0]`, and the calls made. */
  datatype Outcome = Outcome(state: State, result: ScanResult, calls: seq<Call>)

  /** The third `-`-separated field of a barcode, when there is one (`barcode.split('-')[2]`). */
  function QuantityField(barcode: string): Option<string> {
    var parts := Split(barcode, '-');
    if |parts| > 2 then Some(parts[2]) else None
  }

  /** The amount to stock: the collected quantity when positive, otherwise 1 (lines 144 and 185). */
  function Amount(quantity: real): (a: real)
    ensures a > 0.0
    ensures quantity > 0.0 ==> a == quantity
    ensures quantity <= 0.0 ==> a == 1.0
  {
    if quantity > 0.0 then quantity else 1.0
  }

  /** The stock call the mode selects (lines 147-154 and 187-193). */
  function StockCall(mode: Mode, id: int, amount: real): Call {
    match mode
    case Add => AddProduct(id, amount)
    case Consume => ConsumeProduct(id, amount)
  }

  /** The description `create_product` gets: `"{brand} - {quantity}".strip(' -')` (line 176). */
  function Description(p: OffProduct): string {
    StripChars(p.brand + " - " + p.quantity, {' ', '-'})
  }

  /** A barcode that is neither a mode barcode nor a quantity barcode. */
  predicate IsProductBarcode(barcode: string) {
    barcode != AddBarcode && barcode != ConsumeBarcode && !StartsWith(barcode, QuantityPrefix)
  }

  /** Lines 89-105: add the parsed third field to the quantity, or report an error. */
  function QuantityScan(s: State, barcode: string): Outcome {
    var parsed := match QuantityField(barcode) case None => None case Some(f) => ParseFloat(f);
    match parsed
    case Some(v) =>
      Outcome(State(s.mode, s.quantity + v), ScanResult(barcode, QuantitySet, QuantityTotal(s.quantity + v)), [])
    case None =>
      Outcome(s, ScanResult(barcode, Error, InvalidQuantity), [])
  }

  /** Lines 137-167: stock a product Grocy knows, with the id found and the info in hand or fetched. */
  function StockKnown(s: State, barcode: string, id: int, info: InfoReply, fetched: seq<Call>, ans: Answers): Outcome {
    match info
    case NoInfo => Outcome(s, ScanResult(barcode, Error, ProductInfoError), fetched)
    case Info(name) =>
      var amount := Amount(s.quantity);
      var calls := fetched + [StockCall(s.mode, id, amount)];
      var productName := name.GetOr("Unknown");
      if ans.stockOk then
        Outcome(State(s.mode, 0.0), ScanResult(barcode, Success, Stocked(s.mode, productName, amount)), calls)
      else
        Outcome(s, ScanResult(barcode, Error, StockFailed(s.mode, productName)), calls)
  }

  /** Lines 169-214: look the barcode up in Open Food Facts, create the product, attach the barcode, stock it. */
  function CreateAndStock(s: State, barcode: string, ans: Answers): Outcome {
    var calls := [FindByBarcode(barcode), LookupOpenFoodFacts(barcode)];
    match ans.off
    case None => Outcome(s, ScanResult(barcode, NotFound, NotFoundAnywhere), calls)
    case Some(p) =>
      var calls := calls + [CreateProduct(p.name, Description(p))];
      if !Truthy(ans.createdId) then
        Outcome(s, ScanResult(barcode, Error, CreateFailed), calls)
      else
        var id := ans.createdId.value;
        var calls := calls + [AddBarcodeToProduct(id, barcode)];
        if !ans.barcodeAdded then
          Outcome(s, ScanResult(barcode, Warning, CreatedBarcodeFailed(p.name)), calls)
        else
          var amount := Amount(s.quantity);
          var calls := calls + [StockCall(s.mode, id, amount)];
          if ans.stockOk then
            Outcome(State(s.mode, 0.0), ScanResult(barcode, Success, CreatedAndStocked(s.mode, p.name, amount)), calls)
          else
            Outcome(s, ScanResult(barcode, Warning, CreatedStockFailed(s.mode, p.name)), calls)
  }

  /** Lines 107-217: a product barcode. */
  function ProductScan(s: State, barcode: string, hasGrocy: bool, ans: Answers): Outcome {
    if !hasGrocy then
      Outcome(s, ScanResult(barcode, NoGrocy, NoGrocyConfigured), [])
    else
      match ans.byBarcode
      case NoProduct => CreateAndStock(s, barcode, ans)
      case Nested(id, name) =>
        if !Truthy(id) then Outcome(s, ScanResult(barcode, Error, InvalidProductData), [FindByBarcode(barcode)])
        else StockKnown(s, barcode, id.value, Info(name), [FindByBarcode(barcode)], ans)
      case Flat(productId, id) =>
        var pid := if Truthy(productId) then productId else id;
        if !Truthy(pid) then Outcome(s, ScanResult(barcode, Error, InvalidProductData), [FindByBarcode(barcode)])
        else StockKnown(s, barcode, pid.value, ans.info, [FindByBarcode(barcode), GetProductInfo(pid.value)], ans)
  }

  /** `handle_barcode` as a function of the state before the scan. */
  function Handle(s: State, barcode: string, hasGrocy: bool, ans: Answers): Outcome {
    if barcode == AddBarcode then
      Outcome(State(Add, s.quantity), ScanResult(barcode, ModeSet, ModeAdd), [])
    else if barcode == ConsumeBarcode then
      Outcome(State(Consume, s.quantity), ScanResult(barcode, ModeSet, ModeConsume), [])
    else if StartsWith(barcode, QuantityPrefix) then
      QuantityScan(s, barcode)
    else
      ProductScan(s, barcode, hasGrocy, ans)
  }

  /** The mode barcodes set the mode, keep the quantity and call nothing. */
  lemma ModeBarcodes(s: State, hasGrocy: bool, ans: Answers)
    ensures Handle(s, "BBUDDY-ADD", hasGrocy, ans) ==
      Outcome(State(Add, s.quantity), ScanResult("BBUDDY-ADD", ModeSet, ModeAdd), [])
    ensures Handle(s, "BBUDDY-CONSUME", hasGrocy, ans) ==
      Outcome(State(Consume, s.quantity), ScanResult("BBUDDY-CONSUME", ModeSet, ModeConsume), [])
  {
  }

  /** The third field of a quantity barcode is the text after the prefix up to the next `-`; later fields do not matter. */
  lemma QuantityFieldOfPrefix(t: string)
    ensures QuantityField(QuantityPrefix + t) == Some(Split(t, '-')[0])
    ensures var f := Split(t, '-')[0]; '-' !in f && |f| <= |t| && t[..|f|] == f && (|f| == |t| || t[|f|] == '-')
  {
    assert QuantityPrefix + t == "BBUDDY" + ['-'] + ("Q" + ['-'] + t);
    SplitAfterField("BBUDDY", "Q" + ['-'] + t, '-');
    SplitAfterField("Q", t, '-');
    SplitFirst(t, '-');
    SplitFacts(t, '-');
  }

  lemma QuantityScanOf(s: State, b: string, f: string)
    requires QuantityField(b) == Some(f)
    ensures ParseFloat(f).Some? ==>
      var v := ParseFloat(f).value;
      QuantityScan(s, b) == Outcome(State(s.mode, s.quantity + v), ScanResult(b, QuantitySet, QuantityTotal(s.quantity + v)), [])
    ensures ParseFloat(f).None? ==> QuantityScan(s, b) == Outcome(s, ScanResult(b, Error, InvalidQuantity), [])
  {
  }

  /** Every barcode with the quantity prefix is a quantity scan. */
  lemma HandleQuantityPrefix(s: State, t: string, hasGrocy: bool, ans: Answers)
    ensures Handle(s, QuantityPrefix + t, hasGrocy, ans) == QuantityScan(s, QuantityPrefix + t)
  {
    var b := QuantityPrefix + t;
    assert StartsWith(b, QuantityPrefix) by { assert b[..|QuantityPrefix|] == QuantityPrefix; }
    assert b != AddBarcode && b != ConsumeBarcode by { assert b[7] == 'Q'; }
  }

  /**
   * A quantity barcode calls nothing and keeps the mode. When its third field
   * parses, the value is added to the quantity and the status is `quantity`;
   * otherwise the status is `error` and the quantity is unchanged.
   */
  lemma {:induction false} QuantityBarcode(s: State, t: string, hasGrocy: bool, ans: Answers)
    ensures var b := QuantityPrefix + t; var o := Handle(s, b, hasGrocy, ans); var f := Split(t, '-')[0];
      && o.calls == [] && o.state.mode == s.mode
      && (ParseFloat(f).Some? ==>
            o.state.quantity == s.quantity + ParseFloat(f).value
            && o.result == ScanResult(b, QuantitySet, QuantityTotal(s.quantity + ParseFloat(f).value)))
      && (ParseFloat(f).None? ==> o.state.quantity == s.quantity && o.result == ScanResult(b, Error, InvalidQuantity))
  {
    var b := QuantityPrefix + t;
    var f := Split(t, '-')[0];
    QuantityFieldOfPrefix(t);
    HandleQuantityPrefix(s, t, hasGrocy, ans);
    QuantityScanOf(s, b, f);
  }

  /** Quantity barcodes cannot hold a negative number, so the quantity never becomes negative. */
  lemma {:induction false} QuantityNonNegative(s: State, barcode: string, hasGrocy: bool, ans: Answers)
    requires s.quantity >= 0.0
    ensures Handle(s, barcode, hasGrocy, ans).state.quantity >= 0.0
  {
    var f := QuantityField(barcode);
    if f.Some? {
      SplitFacts(barcode, '-');
      ParseFloatNoMinus(f.value);
    }
  }

  predicate IsStock(c: Call) {
    c.AddProduct? || c.ConsumeProduct?
  }

  /**
   * What every product scan satisfies: the mode is kept; the quantity is
   * reset to 0 exactly when the status is `success`; a stock call is made at
   * most once, as the last call, and it is the call the mode selects for the
   * product `stockId` with the amount `Amount(quantity)`; `success` means
   * that call was made and Grocy accepted it.
   */
  ghost predicate ProductOutcome(s: State, barcode: string, ans: Answers, stockId: Option<int>, o: Outcome) {
    && o.state.mode == s.mode
    && o.state.quantity == (if o.result.status == Success then 0.0 else s.quantity)
    && o.result.barcode == barcode
    && (forall k :: 0 <= k < |o.calls| && IsStock(o.calls[k]) ==>
          && k == |o.calls| - 1 && stockId.Some?
          && o.calls[k] == StockCall(s.mode, stockId.value, Amount(s.quantity)))
    && (o.result.status == Success <==> |o.calls| > 0 && IsStock(o.calls[|o.calls| - 1]) && ans.stockOk)
  }

  /**
   * The product a product scan stocks: the id the barcode lookup found
   * (`product_id`, or else `id`, lines 116-125), or for an unknown barcode
   * the id the creation returned (line 179).
   */
  function ScanStockId(ans: Answers): Option<int> {
    match ans.byBarcode
    case NoProduct => ans.createdId
    case Nested(id, _) => id
    case Flat(productId, id) => if Truthy(productId) then productId else id
  }

  lemma StockKnownOutcome(s: State, barcode: string, id: int, info: InfoReply, fetched: seq<Call>, ans: Answers)
    requires forall k :: 0 <= k < |fetched| ==> !IsStock(fetched[k])
    ensures ProductOutcome(s, barcode, ans, Some(id), StockKnown(s, barcode, id, info, fetched, ans))
  {
  }

  lemma CreateAndStockOutcome(s: State, barcode: string, ans: Answers)
    ensures ProductOutcome(s, barcode, ans, ans.createdId, CreateAndStock(s, barcode, ans))
  {
    var o := CreateAndStock(s, barcode, ans);
    if ans.off.Some? && Truthy(ans.createdId) && ans.barcodeAdded {
      var p := ans.off.value;
      var id := ans.createdId.value;
      var c := StockCall(s.mode, id, Amount(s.quantity));
      assert o.calls == [FindByBarcode(barcode), LookupOpenFoodFacts(barcode), CreateProduct(p.name, Description(p)), AddBarcodeToProduct(id, barcode), c];
    }
  }

  /** `strip(' -')` only touches the ends: a brand and a quantity that do not start, resp. end, with either give `brand - quantity`. */
  lemma DescriptionBrandAndQuantity(p: OffProduct)
    requires p.brand != [] && p.brand[0] !in {' ', '-'}
    requires p.quantity != [] && p.quantity[|p.quantity| - 1] !in {' ', '-'}
    ensures Description(p) == p.brand + " - " + p.quantity
  {
    var t := p.brand + " - " + p.quantity;
    assert t[0] == p.brand[0] && t[|t| - 1] == p.quantity[|p.quantity| - 1];
  }

  /** Without a quantity the separator is stripped away: the description is the brand alone. */
  lemma DescriptionBrandOnly(p: OffProduct)
    requires p.quantity == []
    requires p.brand != [] && p.brand[0] !in {' ', '-'} && p.brand[|p.brand| - 1] !in {' ', '-'}
    ensures Description(p) == p.brand
  {
    var t := p.brand + " - ";
    assert p.brand + " - " + p.quantity == t;
    assert t[0] == p.brand[0];
    assert t[..|t| - 1] == p.brand + " -";
    assert (p.brand + " -")[..|p.brand| + 1] == p.brand + " ";
    assert (p.brand + " ")[..|p.brand|] == p.brand;
    calc {
      RStripChars(t, {' ', '-'});
      RStripChars(p.brand + " -", {' ', '-'});
      RStripChars(p.brand + " ", {' ', '-'});
      RStripChars(p.brand, {' ', '-'});
    }
  }

  /** Without a brand the description is the quantity alone. */
  lemma DescriptionQuantityOnly(p: OffProduct)
    requires p.brand == []
    requires p.quantity != [] && p.quantity[0] !in {' ', '-'} && p.quantity[|p.quantity| - 1] !in {' ', '-'}
    ensures Description(p) == p.quantity
  {
    var t := " - " + p.quantity;
    assert p.brand + " - " + p.quantity == t;
    assert t[1..] == "- " + p.quantity;
    assert ("- " + p.quantity)[1..] == " " + p.quantity;
    assert (" " + p.quantity)[1..] == p.quantity;
    calc {
      LStripChars(t, {' ', '-'});
      LStripChars("- " + p.quantity, {' ', '-'});
      LStripChars(" " + p.quantity, {' ', '-'});
      LStripChars(p.quantity, {' ', '-'});
    }
  }

  /** With neither, the description is empty. */
  lemma DescriptionEmpty(p: OffProduct)
    requires p.brand == [] && p.quantity == []
    ensures Description(p) == []
  {
    assert p.brand + " - " + p.quantity == " - ";
    assert (" - ")[1..] == "- " && ("- ")[1..] == " " && (" ")[1..] == [];
    calc {
      LStripChars(" - ", {' ', '-'});
      LStripChars("- ", {' ', '-'});
      LStripChars(" ", {' ', '-'});
      LStripChars([], {' ', '-'});
    }
  }

  lemma {:induction false} ProductScanOutcome(s: State, barcode: string, hasGrocy: bool, ans: Answers)
    ensures ProductOutcome(s, barcode, ans, ScanStockId(ans), ProductScan(s, barcode, hasGrocy, ans))
  {
    if hasGrocy {
      match ans.byBarcode
      case NoProduct => CreateAndStockOutcome(s, barcode, ans);
      case Nested(id, name) =>
        if Truthy(id) {
          StockKnownOutcome(s, barcode, id.value, Info(name), [FindByBarcode(barcode)], ans);
        }
      case Flat(productId, id) =>
        var pid := if Truthy(productId) then productId else id;
        if Truthy(pid) {
          StockKnownOutcome(s, barcode, pid.value, ans.info, [FindByBarcode(barcode), GetProductInfo(pid.value)], ans);
        }
    }
  }

  /** A product barcode is handled by the product branch (lines 107-217). */
  lemma HandleProductBarcode(s: State, barcode: string, hasGrocy: bool, ans: Answers)
    requires IsProductBarcode(barcode)
    ensures Handle(s, barcode, hasGrocy, ans) == ProductScan(s, barcode, hasGrocy, ans)
  {
  }

  /** Every product scan keeps the mode, stocks with the mode's call and amount, and resets the quantity exactly on success. */
  lemma {:induction false} ProductBarcode(s: State, barcode: string, hasGrocy: bool, ans: Answers)
    requires IsProductBarcode(barcode)
    ensures ProductOutcome(s, barcode, ans, ScanStockId(ans), Handle(s, barcode, hasGrocy, ans))
  {
    HandleProductBarcode(s, barcode, hasGrocy, ans);
    ProductScanOutcome(s, barcode, hasGrocy, ans);
  }

  /** Without a Grocy client a product barcode is recorded as `no_grocy` and nothing else happens. */
  lemma NoGrocyScan(s: State, barcode: string, ans: Answers)
    requires IsProductBarcode(barcode)
    ensures Handle(s, barcode, false, ans) == Outcome(s, ScanResult(barcode, NoGrocy, NoGrocyConfigured), [])
  {
  }

  /** A barcode Grocy does not know and Open Food Facts does not know either is `not_found`, after the two lookups. */
  lemma UnknownEverywhere(s: State, barcode: string, ans: Answers)
    requires IsProductBarcode(barcode) && ans.byBarcode == NoProduct && ans.off == None
    ensures Handle(s, barcode, true, ans) ==
      Outcome(s, ScanResult(barcode, NotFound, NotFoundAnywhere), [FindByBarcode(barcode), LookupOpenFoodFacts(barcode)])
  {
  }

  /** The module-level state of barcodebuddy/app/main.py. */
  class App {
    /** Whether `grocy_client` is set: Grocy is configured and `test_connection()` succeeded (lines 29-38). */
    const hasGrocy: bool
    const recent: Recent<ScanResult>
    var mode: Mode
    var quantity: real

    ghost predicate Valid()
      reads this, recent
    {
      recent.Valid() && quantity >= 0.0
    }

    /** The globals at import time: mode `add`, quantity 0, no scans. */
    constructor (grocyConfigured: bool, connectionOk: bool)
      ensures hasGrocy == (grocyConfigured && connectionOk)
      ensures mode == Add && quantity == 0.0 && recent.scans == [] && fresh(recent)
      ensures Valid()
    {
      hasGrocy := grocyConfigured && connectionOk;
      recent := new Recent();
      mode := Add;
      quantity := 0.0;
    }

    /** `handle_barcode`: update the mode and quantity, make the calls, and record the result first in `recent_scans`. */
    method HandleBarcode(barcode: string, ans: Answers) returns (result: ScanResult, calls: seq<Call>)
      requires Valid()
      modifies this, recent
      ensures Valid()
      ensures Outcome(State(mode, quantity), result, calls) == Handle(old(State(mode, quantity)), barcode, hasGrocy, ans)
      ensures recent.scans == Prepend(old(recent.scans), result)
    {
      QuantityNonNegative(State(mode, quantity), barcode, hasGrocy, ans);
      calls := [];
      if barcode == AddBarcode {
        mode := Add;
        result := ScanResult(barcode, ModeSet, ModeAdd);
      } else if barcode == ConsumeBarcode {
        mode := Consume;
        result := ScanResult(barcode, ModeSet, ModeConsume);
      } else if StartsWith(barcode, QuantityPrefix) {
        var field := QuantityField(barcode);
        var parsed := if field.Some? then ParseFloat(field.value) else None;
        if parsed.Some? {
          quantity := quantity + parsed.value;
          result := ScanResult(barcode, QuantitySet, QuantityTotal(quantity));
        } else {
          result := ScanResult(barcode, Error, InvalidQuantity);
        }
      } else if hasGrocy {
        result, calls := HandleProduct(barcode, ans);
      } else {
        result := ScanResult(barcode, NoGrocy, NoGrocyConfigured);
      }
      recent.Record(result);
    }

    /** Lines 108-214, with a Grocy client. */
    method HandleProduct(barcode: string, ans: Answers) returns (result: ScanResult, calls: seq<Call>)
      requires IsProductBarcode(barcode) && hasGrocy
      modifies this`quantity
      ensures Outcome(State(mode, quantity), result, calls) == Handle(old(State(mode, quantity)), barcode, hasGrocy, ans)
    {
      calls := [FindByBarcode(barcode)];
      var productId: Option<int>;
      var info: InfoReply;
      match ans.byBarcode {
        case NoProduct =>
          result, calls := CreateProduct(barcode, ans);
          return;
        case Nested(id, name) =>
          productId := id;
          info := Info(name);
        case Flat(pid, id) =>
          productId := if Truthy(pid) then pid else id;
          info := NoInfo;
      }
      if !Truthy(productId) {
        result := ScanResult(barcode, Error, InvalidProductData);
        return;
      }
      if info.NoInfo? {
        calls := calls + [GetProductInfo(productId.value)];
        info := ans.info;
      }
      if info.Info? {
        var productName := info.name.GetOr("Unknown");
        var amount := if quantity > 0.0 then quantity else 1.0;
        calls := calls + [StockCall(mode, productId.value, amount)];
        if ans.stockOk {
          result := ScanResult(barcode, Success, Stocked(mode, productName, amount));
          quantity := 0.0;
        } else {
          result := ScanResult(barcode, Error, StockFailed(mode, productName));
        }
      } else {
        result := ScanResult(barcode, Error, ProductInfoError);
      }
    }

    /** Lines 168-214: the product is not in Grocy. */
    method CreateProduct(barcode: string, ans: Answers) returns (result: ScanResult, calls: seq<Call>)
      modifies this`quantity
      ensures Outcome(State(mode, quantity), result, calls) == CreateAndStock(old(State(mode, quantity)), barcode, ans)
    {
      calls := [FindByBarcode(barcode), LookupOpenFoodFacts(barcode)];
      if ans.off.None? {
        result := ScanResult(barcode, NotFound, NotFoundAnywhere);
        return;
      }
      var p := ans.off.value;
      calls := calls + [Call.CreateProduct(p.name, Description(p))];
      if !Truthy(ans.createdId) {
        result := ScanResult(barcode, Error, CreateFailed);
        return;
      }
      var id := ans.createdId.value;
      calls := calls + [AddBarcodeToProduct(id, barcode)];
      if !ans.barcodeAdded {
        result := ScanResult(barcode, Warning, CreatedBarcodeFailed(p.name));
        return;
      }
      var amount := if quantity > 0.0 then quantity else 1.0;
      calls := calls + [StockCall(mode, id, amount)];
      if ans.stockOk {
        result := ScanResult(barcode, Success, CreatedAndStocked(mode, p.name, amount));
        quantity := 0.0;
      } else {
        result := ScanResult(barcode, Warning, CreatedStockFailed(mode, p.name));
      }
    }

    /**
     * `manual_scan` (lines 240-250): the posted `barcode` (absent counts as
     * empty) is stripped; blank input is rejected and changes nothing,
     * anything else is handled as a scan of the stripped text.
     */
    method ManualScan(posted: Option<string>, ans: Answers) returns (accepted: bool)
      requires Valid()
      modifies this, recent
      ensures Valid()
      ensures accepted <==> Strip(posted.GetOr("")) != ""
      ensures !accepted ==> mode == old(mode) && quantity == old(quantity) && recent.scans == old(recent.scans)
      ensures accepted ==>
        var o := Handle(old(State(mode, quantity)), Strip(posted.GetOr("")), hasGrocy, ans);
        State(mode, quantity) == o.state && recent.scans == Prepend(old(recent.scans), o.result)
    {
      var barcode := Strip(posted.GetOr(""));
      if barcode != "" {
        var _, _ := HandleBarcode(barcode, ans);
        return true;
      }
      return false;
    }
  }
}
