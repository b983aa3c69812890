/**
 * `handle_barcode` and `manual_scan` of the older app/main.py: look the
 * barcode up in Grocy, fetch the product, add one unit to stock, and record
 * the outcome first in the capped `recent_scans` list.
 *
 * The Grocy calls are oracles: `Answers` holds what each returns for the
 * barcode being handled, and the calls made are reported in order.
 */
module LegacyApp {
  import opened Wrappers
  import opened Text
  import opened ScanLog

  /** The `status` of a scan result: `success`, `error`, `not_found`, `no_grocy`. */
  datatype Status = Success | Error | NotFound | NoGrocy

  /** The `message` of a scan result, by the values it is formatted from. */
  datatype Message = Added(name: string) | FailedToAdd(name: string) | ProductNotFound | BarcodeNotFound | NoGrocyConfigured

  datatype ScanResult = ScanResult(barcode: string, status: Status, message: Message)

  /** A Grocy call; `product.get('product_id')` may be `None` and is passed on as it is. */
  datatype Call = FindByBarcode(barcode: string) | GetProductInfo(id: Option<int>) | AddProduct(id: Option<int>, amount: real)

  /** What `find_product_by_barcode` returns: nothing usable (`None` or `{}`), or a dict with an optional `product_id`. */
  datatype BarcodeReply = NoProduct | Product(productId: Option<int>)

  /** What `get_product_info` returns: nothing usable (`None` or `{}`), or a product with an optional name. */
  datatype InfoReply = NoInfo | Info(name: Option<string>)

  datatype Answers = Answers(byBarcode: BarcodeReply, info: InfoReply, added: bool)

  datatype Outcome = Outcome(result: ScanResult, calls: seq<Call>)

  /** `handle_barcode` (lines 53-78): the result that is recorded and the calls made. */
  function Handle(barcode: string, hasGrocy: bool, ans: Answers): Outcome {
    if !hasGrocy then
      Outcome(ScanResult(barcode, NoGrocy, NoGrocyConfigured), [])
    else
      match ans.byBarcode
      case NoProduct => Outcome(ScanResult(barcode, NotFound, BarcodeNotFound), [FindByBarcode(barcode)])
      case Product(pid) =>
        var calls := [FindByBarcode(barcode), GetProductInfo(pid)];
        match ans.info
        case NoInfo => Outcome(ScanResult(barcode, NotFound, ProductNotFound), calls)
        case Info(name) =>
          var productName := name.GetOr("Unknown");
          var calls := calls + [AddProduct(pid, 1.0)];
          if ans.added then Outcome(ScanResult(barcode, Success, Added(productName)), calls)
          else Outcome(ScanResult(barcode, Error, FailedToAdd(productName)), calls)
  }

  /**
   * The decision tree of lines 53-78: `no_grocy` exactly without a client;
   * `not_found` exactly when the barcode lookup or the product lookup is
   * empty, with the message telling which; otherwise one unit is added, and
   * the status is `success` or `error` as Grocy accepts the addition or not.
   */
  lemma StatusDecision(barcode: string, hasGrocy: bool, ans: Answers)
    ensures var o := Handle(barcode, hasGrocy, ans);
      && o.result.barcode == barcode
      && (o.result.status == NoGrocy <==> !hasGrocy)
      && (o.result.status == NoGrocy ==> o.calls == [])
      && (o.result.message == BarcodeNotFound <==> hasGrocy && ans.byBarcode.NoProduct?)
      && (o.result.message == ProductNotFound <==> hasGrocy && ans.byBarcode.Product? && ans.info.NoInfo?)
      && (o.result.status == NotFound <==> o.result.message == BarcodeNotFound || o.result.message == ProductNotFound)
      && (o.result.status == Success <==> hasGrocy && ans.byBarcode.Product? && ans.info.Info? && ans.added)
      && (o.result.status == Error <==> hasGrocy && ans.byBarcode.Product? && ans.info.Info? && !ans.added)
  {
  }

  /** An addition is always of one unit, of the id the barcode lookup gave, and it is the last call. */
  lemma AddsOneUnit(barcode: string, hasGrocy: bool, ans: Answers)
    ensures var o := Handle(barcode, hasGrocy, ans);
      forall k :: 0 <= k < |o.calls| && o.calls[k].AddProduct? ==>
        k == |o.calls| - 1 && o.calls[k] == AddProduct(ans.byBarcode.productId, 1.0)
  {
  }

  /** The module-level state of app/main.py. */
  class App {
    /** Whether `grocy_client` is set: Grocy is configured and `test_connection()` succeeded (lines 28-37). */
    const hasGrocy: bool
    const recent: Recent<ScanResult>

    constructor (grocyConfigured: bool, connectionOk: bool)
      ensures hasGrocy == (grocyConfigured && connectionOk)
      ensures recent.scans == [] && recent.Valid() && fresh(recent)
    {
      hasGrocy := grocyConfigured && connectionOk;
      recent := new Recent();
    }

    /** `handle_barcode`: make the calls and record exactly one result first in `recent_scans`. */
    method HandleBarcode(barcode: string, ans: Answers) returns (result: ScanResult, calls: seq<Call>)
      modifies recent
      ensures Outcome(result, calls) == Handle(barcode, hasGrocy, ans)
      ensures recent.scans == Prepend(old(recent.scans), result)
      ensures old(recent.Valid()) ==> recent.Valid()
    {
      calls := [];
      if hasGrocy {
        calls := [FindByBarcode(barcode)];
        if ans.byBarcode.Product? {
          var productId := ans.byBarcode.productId;
          calls := calls + [GetProductInfo(productId)];
          if ans.info.Info? {
            var productName := ans.info.name.GetOr("Unknown");
            calls := calls + [AddProduct(productId, 1.0)];
            if ans.added {
              result := ScanResult(barcode, Success, Added(productName));
            } else {
              result := ScanResult(barcode, Error, FailedToAdd(productName));
            }
          } else {
            result := ScanResult(barcode, NotFound, ProductNotFound);
          }
        } else {
          result := ScanResult(barcode, NotFound, BarcodeNotFound);
        }
      } else {
        result := ScanResult(barcode, NoGrocy, NoGrocyConfigured);
      }
      recent.Record(result);
    }

    /**
     * `manual_scan` (lines 101-111): blank input (absent counts as empty) is
     * rejected and records nothing; anything else is handled stripped.
     */
    method ManualScan(posted: Option<string>, ans: Answers) returns (accepted: bool)
      modifies recent
      ensures accepted <==> Strip(posted.GetOr("")) != ""
      ensures !accepted ==> recent.scans == old(recent.scans)
      ensures accepted ==>
        recent.scans == Prepend(old(recent.scans), Handle(Strip(posted.GetOr("")), hasGrocy, ans).result)
      ensures old(recent.Valid()) ==> recent.Valid()
    {
      var barcode := Strip(posted.GetOr(""));
      if barcode != "" {
        var _, _ := HandleBarcode(barcode, ans);
        return true;
      }
      return false;
    }
  }
}
