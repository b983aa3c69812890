/**
 * paperless-grocy-magic/app/product_matcher.py: each receipt item is paired
 * with the Grocy product whose name scores best, the first such product
 * when several tie, provided the best score reaches the threshold; the
 * matches are then split into matched ones and the receipt items left
 * without a product.
 *
 * The four fuzzywuzzy strategies are uninterpreted scorers, and the
 * threshold is the already converted integer `int(threshold * 100)`.
 */
module ProductMatcher {
  import opened Wrappers
  import opened Text
  import ReceiptParser
  import GrocyClient

  type ReceiptItem = ReceiptParser.ReceiptItem
  type GrocyProduct = GrocyClient.GrocyProduct

  /** `fuzz.ratio`, `fuzz.partial_ratio`, `fuzz.token_sort_ratio` and `fuzz.token_set_ratio`. */
  datatype Fuzz = Fuzz(
    ratio: (string, string) -> int,
    partialRatio: (string, string) -> int,
    tokenSortRatio: (string, string) -> int,
    tokenSetRatio: (string, string) -> int)

  /** fuzzywuzzy's scores lie between 0 and 100. */
  ghost predicate InRange(fuzz: Fuzz) {
    && (forall a, b :: 0 <= fuzz.ratio(a, b) <= 100)
    && (forall a, b :: 0 <= fuzz.partialRatio(a, b) <= 100)
    && (forall a, b :: 0 <= fuzz.tokenSortRatio(a, b) <= 100)
    && (forall a, b :: 0 <= fuzz.tokenSetRatio(a, b) <= 100)
  }

  function Max(a: int, b: int): int {
    if a >= b then a else b
  }

  /** The score of lines 68-77: the best of the four strategies on the lower-cased names. */
  function Combined(fuzz: Fuzz, receiptName: string, productName: string): (s: int)
    ensures var a, b := Lower(receiptName), Lower(productName);
      && fuzz.ratio(a, b) <= s && fuzz.partialRatio(a, b) <= s
      && fuzz.tokenSortRatio(a, b) <= s && fuzz.tokenSetRatio(a, b) <= s
      && (s == fuzz.ratio(a, b) || s == fuzz.partialRatio(a, b)
          || s == fuzz.tokenSortRatio(a, b) || s == fuzz.tokenSetRatio(a, b))
    ensures InRange(fuzz) ==> 0 <= s <= 100
  {
    var a, b := Lower(receiptName), Lower(productName);
    Max(Max(Max(fuzz.ratio(a, b), fuzz.partialRatio(a, b)), fuzz.tokenSortRatio(a, b)), fuzz.tokenSetRatio(a, b))
  }

  /** The score of every product, in list order. */
  function Scores(fuzz: Fuzz, receiptName: string, products: seq<GrocyProduct>): (s: seq<int>)
    ensures |s| == |products|
    ensures forall i :: 0 <= i < |products| ==> s[i] == Combined(fuzz, receiptName, products[i].name)
  {
    seq(|products|, i requires 0 <= i < |products| => Combined(fuzz, receiptName, products[i].name))
  }

  /** `best_score` after the loop of lines 62-81 has seen the scores `s`. */
  function BestScore(s: seq<int>): int {
    if s == [] then 0 else Max(BestScore(s[..|s| - 1]), s[|s| - 1])
  }

  /** The position of `best_product` after the loop: replaced only by a strictly higher score. */
  function BestIndex(s: seq<int>): Option<nat> {
    if s == [] then None
    else if s[|s| - 1] > BestScore(s[..|s| - 1]) then Some(|s| - 1)
    else BestIndex(s[..|s| - 1])
  }

  /** Position `i` holds a highest score, and every earlier position a strictly lower one. */
  predicate IsFirstBest(s: seq<int>, i: int) {
    && 0 <= i < |s|
    && (forall j :: 0 <= j < |s| ==> s[j] <= s[i])
    && (forall j :: 0 <= j < i ==> s[j] < s[i])
  }

  /** The best score is the maximum of the scores, or 0 when none is positive. */
  lemma {:induction false} BestScoreIsMaximum(s: seq<int>)
    ensures BestScore(s) >= 0
    ensures forall j :: 0 <= j < |s| ==> s[j] <= BestScore(s)
    ensures BestScore(s) > 0 ==> exists j :: 0 <= j < |s| && s[j] == BestScore(s)
  {
    if s != [] {
      var p := s[..|s| - 1];
      BestScoreIsMaximum(p);
      forall j | 0 <= j < |p| ensures s[j] == p[j] { }
    }
  }

  /** A product is chosen exactly when some score is positive, and it is the first one with the highest score. */
  lemma {:induction false} BestIndexIsFirst(s: seq<int>)
    ensures BestIndex(s).Some? <==> BestScore(s) > 0
    ensures BestIndex(s).Some? ==> IsFirstBest(s, BestIndex(s).value) && s[BestIndex(s).value] == BestScore(s)
  {
    if s != [] {
      var p := s[..|s| - 1];
      BestIndexIsFirst(p);
      BestScoreIsMaximum(p);
      BestScoreIsMaximum(s);
      forall j | 0 <= j < |p| ensures s[j] == p[j] { }
    }
  }

  /** Line 85 reads `best_product.name`: with a threshold of at most 0 and no positive score, `best_product` is still `None` there. */
  predicate NoCrash(threshold: int, fuzz: Fuzz, receiptName: string, products: seq<GrocyProduct>) {
    products == [] || threshold > 0 || BestScore(Scores(fuzz, receiptName, products)) > 0
  }

  /**
   * The product and score `find_best_match` (lines 47-89) settles on: none
   * and 0 for an empty list; otherwise the best score, with the first
   * product reaching it when that score is at least the threshold.
   */
  function MatchOutcome(threshold: int, fuzz: Fuzz, receiptName: string, products: seq<GrocyProduct>): (r: (Option<GrocyProduct>, int))
    requires NoCrash(threshold, fuzz, receiptName, products)
    ensures products == [] ==> r == (None, 0)
    ensures products != [] ==> r.1 == BestScore(Scores(fuzz, receiptName, products))
    ensures r.0.Some? <==> products != [] && r.1 >= threshold
    ensures r.0.Some? ==> exists i :: IsFirstBest(Scores(fuzz, receiptName, products), i) && r.0.value == products[i]
  {
    if products == [] then (None, 0)
    else
      var s := Scores(fuzz, receiptName, products);
      var best := BestScore(s);
      BestIndexIsFirst(s);
      BestScoreIsMaximum(s);
      if best >= threshold then (Some(products[BestIndex(s).value]), best) else (None, best)
  }

  /** With fuzzywuzzy's range every best score lies between 0 and 100. */
  lemma {:induction false} BestScoreInRange(fuzz: Fuzz, receiptName: string, products: seq<GrocyProduct>)
    requires InRange(fuzz)
    ensures 0 <= BestScore(Scores(fuzz, receiptName, products)) <= 100
  {
    var s := Scores(fuzz, receiptName, products);
    BestScoreIsMaximum(s);
    if BestScore(s) > 0 {
      var j :| 0 <= j < |s| && s[j] == BestScore(s);
      assert s[j] == Combined(fuzz, receiptName, products[j].name);
    }
  }

  /** `ProductMatch` (lines 11-32); `wasCreated` is the attribute `price_updater.py` adds later, absent (false) at first. */
  class ProductMatch {
    const receiptItem: ReceiptItem
    var grocyProduct: Option<GrocyProduct>
    const score: int
    var wasCreated: bool

    constructor (receiptItem: ReceiptItem, grocyProduct: Option<GrocyProduct>, score: int)
      ensures this.receiptItem == receiptItem && this.grocyProduct == grocyProduct && this.score == score
      ensures !wasCreated
    {
      this.receiptItem := receiptItem;
      this.grocyProduct := grocyProduct;
      this.score := score;
      this.wasCreated := false;
    }

    /** `is_match` (lines 19-22) */
    predicate IsMatch()
      reads this
    {
      grocyProduct.Some?
    }

    /** `is_new_product` (lines 24-27): exactly the matches that are not `is_match`. */
    predicate IsNewProduct()
      reads this
      ensures IsNewProduct() <==> !IsMatch()
    {
      grocyProduct.None?
    }
  }

  /** The loop of lines 62-81 over the products' combined scores. */
  method ScanProducts(fuzz: Fuzz, receiptName: string, products: seq<GrocyProduct>)
    returns (bestScore: int, best: Option<nat>)
    ensures bestScore == BestScore(Scores(fuzz, receiptName, products))
    ensures best == BestIndex(Scores(fuzz, receiptName, products))
  {
    ghost var s := Scores(fuzz, receiptName, products);
    bestScore, best := 0, None;
    var i := 0;
    while i < |products|
      invariant 0 <= i <= |products|
      invariant bestScore == BestScore(s[..i]) && best == BestIndex(s[..i])
    {
      var score := Combined(fuzz, receiptName, products[i].name);
      assert s[..i + 1][..i] == s[..i];
      if score > bestScore {
        bestScore, best := score, Some(i);
      }
      i := i + 1;
    }
    assert s[..i] == s;
  }

  /** `find_best_match` (lines 47-89). */
  method FindBestMatch(threshold: int, fuzz: Fuzz, item: ReceiptItem, products: seq<GrocyProduct>)
    returns (m: ProductMatch)
    requires NoCrash(threshold, fuzz, item.name, products)
    ensures fresh(m) && m.receiptItem == item && !m.wasCreated
    ensures (m.grocyProduct, m.score) == MatchOutcome(threshold, fuzz, item.name, products)
  {
    if products == [] {
      m := new ProductMatch(item, None, 0);
      return;
    }
    var bestScore, best := ScanProducts(fuzz, item.name, products);
    BestIndexIsFirst(Scores(fuzz, item.name, products));
    if bestScore >= threshold {
      m := new ProductMatch(item, Some(products[best.value]), bestScore);
    } else {
      m := new ProductMatch(item, None, bestScore);
    }
  }

  /** `match_all` (lines 91-112): one new match per receipt item, in the items' order. */
  method MatchAll(threshold: int, fuzz: Fuzz, items: seq<ReceiptItem>, products: seq<GrocyProduct>)
    returns (matches: seq<ProductMatch>)
    requires forall i :: 0 <= i < |items| ==> NoCrash(threshold, fuzz, items[i].name, products)
    ensures |matches| == |items|
    ensures forall i :: 0 <= i < |items| ==>
      && fresh(matches[i]) && matches[i].receiptItem == items[i] && !matches[i].wasCreated
      && (matches[i].grocyProduct, matches[i].score) == MatchOutcome(threshold, fuzz, items[i].name, products)
    ensures forall i, j :: 0 <= i < j < |matches| ==> matches[i] != matches[j]
  {
    matches := [];
    var i := 0;
    while i < |items|
      invariant 0 <= i <= |items| && |matches| == i
      invariant forall k :: 0 <= k < i ==>
        && fresh(matches[k]) && matches[k].receiptItem == items[k] && !matches[k].wasCreated
        && (matches[k].grocyProduct, matches[k].score) == MatchOutcome(threshold, fuzz, items[k].name, products)
      invariant forall k, l :: 0 <= k < l < i ==> matches[k] != matches[l]
    {
      var m := FindBestMatch(threshold, fuzz, items[i], products);
      matches := matches + [m];
      i := i + 1;
    }
  }

  /** `get_matched_items` (lines 118-120). */
  function Matched(matches: seq<ProductMatch>): (r: seq<ProductMatch>)
    reads matches
    ensures |r| <= |matches|
  {
    if matches == [] then []
    else (if matches[0].IsMatch() then [matches[0]] else []) + Matched(matches[1..])
  }

  /** `get_unmatched_items` (lines 114-116): the receipt items of the matches without a product. */
  function Unmatched(matches: seq<ProductMatch>): (r: seq<ReceiptItem>)
    reads matches
    ensures |r| <= |matches|
  {
    if matches == [] then []
    else (if matches[0].IsNewProduct() then [matches[0].receiptItem] else []) + Unmatched(matches[1..])
  }

  /** Every match is either matched or unmatched, so the two lists together are as long as the matches. */
  lemma {:induction false} Partition(matches: seq<ProductMatch>)
    ensures |Matched(matches)| + |Unmatched(matches)| == |matches|
  {
    if matches != [] {
      Partition(matches[1..]);
    }
  }

  /** The matched list holds exactly the matches that have a product. */
  lemma {:induction false} MatchedMembers(matches: seq<ProductMatch>, m: ProductMatch)
    ensures m in Matched(matches) <==> m in matches && m.IsMatch()
  {
    if matches != [] {
      MatchedMembers(matches[1..], m);
      assert matches == [matches[0]] + matches[1..];
    }
  }

  /** The unmatched list holds exactly the receipt items of matches without a product. */
  lemma {:induction false} UnmatchedMembers(matches: seq<ProductMatch>, item: ReceiptItem)
    ensures item in Unmatched(matches) <==> exists m :: m in matches && m.IsNewProduct() && m.receiptItem == item
  {
    if matches != [] {
      UnmatchedMembers(matches[1..], item);
      assert matches == [matches[0]] + matches[1..];
      assert forall m :: m in matches <==> m == matches[0] || m in matches[1..];
    }
  }

  /** Both lists are taken part by part, so each keeps the order of the matches. */
  lemma {:induction false} PartitionAppend(a: seq<ProductMatch>, b: seq<ProductMatch>)
    ensures Matched(a + b) == Matched(a) + Matched(b)
    ensures Unmatched(a + b) == Unmatched(a) + Unmatched(b)
  {
    if a == [] {
      assert a + b == b;
    } else {
      assert (a + b)[0] == a[0];
      assert (a + b)[1..] == a[1..] + b;
      PartitionAppend(a[1..], b);
      var h := if a[0].IsMatch() then [a[0]] else [];
      var u := if a[0].IsNewProduct() then [a[0].receiptItem] else [];
      assert Matched(a + b) == h + Matched(a[1..] + b);
      assert Unmatched(a + b) == u + Unmatched(a[1..] + b);
      assert h + (Matched(a[1..]) + Matched(b)) == (h + Matched(a[1..])) + Matched(b);
      assert u + (Unmatched(a[1..]) + Unmatched(b)) == (u + Unmatched(a[1..])) + Unmatched(b);
    }
  }
}
