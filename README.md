# Barcode Buddy and Paperless-Grocy Magic, modelled in Dafny

This project models the decision logic of a small home-inventory system
written in Python:

- **Barcode Buddy** turns a USB barcode scanner's keystrokes into barcodes
  (`ScannerHandler`). It then adds or consumes the scanned product in Grocy
  (`handle_barcode`). Scans can set the mode (`BBUDDY-ADD`, `BBUDDY-CONSUME`)
  or a quantity (`BBUDDY-Q-…`). There is a manual entry form (`manual_scan`).
  The 50 most recent scan results are kept newest first. The older single-file
  app (`app/main.py`) keeps the same list. Its decision tree is simpler.
- **Barcode Buddy's add-on configuration**: each setting is a getter over the
  options dictionary, with a default where the setting is absent.
- **Paperless-Grocy Magic** reads the OCR text of a REWE receipt stored in
  Paperless (`ReweParser`). It pairs each item with the Grocy product whose
  name scores best (`ProductMatcher`). Matched products get the new price and
  one unit of stock; products are created for the unmatched items
  (`PriceUpdateService`). Each outcome is counted.
- **The list and string logic of the Paperless and Grocy HTTP clients**: the
  custom-field lookup, the "unprocessed" filter, update-or-append of a
  custom field, product search, the price line in the product description,
  the `create_product` guards and payload, and which answers count as success.

Every call to the outside world is a parameter of the model:

- Grocy, Open Food Facts and Paperless answers are oracle values. They are
  held in `Answers`, `Grocy` or one `Reply` per request. The model reports
  every call or request it makes, in order.
- The scanner callback is a ghost sequence of the barcodes it was called
  with. An oracle says whether the callback raises for a given barcode.
- The four fuzzywuzzy scorers are uninterpreted functions.
- The float formatters (`{:.2f}`, `str()`), the `re.sub` replacement and
  today's date are function or value parameters.

State is modelled the way the Python code keeps it:

- Dafny classes with `modifies` clauses: the scan handler's buffer and
  `running` flag, the module globals `current_mode`, `current_quantity` and
  `recent_scans`, the `Receipt`, the `ProductMatch` objects that the price
  updater changes in place, and `PriceUpdateResult`.
- Methods with loop invariants: the loops over events, lines, products,
  matches and custom fields. Each is proved equal to a recursive function.
- Lemmas state the properties of those functions.

Modules, one per source file:

- `Scanner`, `BarcodeApp`, `LegacyApp`, `AddonConfig`.
- `ReceiptParser`, `ProductMatcher`, `PriceUpdater`, `PaperlessClient`,
  `GrocyClient`.
- Shared modules: `ScanLog` (the capped scan list), `Http` (URLs and reply
  kinds), `Text` (Python `str` methods), `Decimal` (`int()` and `float()` of
  digit text) and `Wrappers` (`Option`).

## Model

| member | source | states |
|---|---|---|
| Scanner.KeyChar | barcodebuddy/app/scanner.py:103-118 | A mapped key types a character of the key map's alphabet (digits, `A`-`Z`, `-`, `=`), and neither Enter key is mapped |
| Scanner.HandleStep | barcodebuddy/app/scanner.py:92-118 | Defines one `_handle_key` step on the buffer and the barcodes delivered. AssembleSnoc, GroupTextsEnter and GroupTextsKey state what it does |
| Scanner.KeyCharIsKeyName | barcodebuddy/app/scanner.py:103-118 | A key name maps to `c` exactly when `c` is in the alphabet and the name is `KEY_<c>` (`KEY_MINUS`, `KEY_EQUAL` for the two signs) |
| Scanner.KeyDowns | barcodebuddy/app/scanner.py:77-80 | Filtering the events to key-down `EV_KEY` events never gives more keys than events |
| Scanner.Assemble | barcodebuddy/app/scanner.py:92-118 | Defines the key names handled in order. AssembleAlphabet and AssembleIsGroups state which barcodes reach the callback and what stays in the buffer |
| Scanner.EventStep | barcodebuddy/app/scanner.py:77-80 | Defines one event of the read loop: only a key-down `EV_KEY` event is handled. EventsSnoc ties it to KeyDowns and Assemble |
| Scanner.AssembleAlphabet | barcodebuddy/app/scanner.py:92-118 | Whatever keys arrive, the buffer holds only key-map characters. The barcodes already delivered stay as they were. Every new barcode is non-empty and made of key-map characters |
| Scanner.AssembleSnoc | barcodebuddy/app/scanner.py:92-118 | Handling one more key is one more step of `_handle_key` after the earlier keys |
| Scanner.KeyDownsSnoc | barcodebuddy/app/scanner.py:77-80 | One more event adds its key name exactly when it is a key-down `EV_KEY` event |
| Scanner.EventsSnoc | barcodebuddy/app/scanner.py:77-80 | Assembling the filtered keys of one more event is one more step of the event filter |
| Scanner.Groups | barcodebuddy/app/scanner.py:95-100 | Splitting the keys at every Enter gives at least one group (the one still being typed) |
| Scanner.GroupTexts | barcodebuddy/app/scanner.py:95-118 | There is one text per group |
| Scanner.NonEmptyAppend | barcodebuddy/app/scanner.py:95-100 | Dropping the empty texts distributes over appending one text |
| Scanner.GroupTextsEmpty | barcodebuddy/app/scanner.py:92-118 | Before any key, the only text is the buffer started from |
| Scanner.GroupTextsEnter | barcodebuddy/app/scanner.py:95-100 | Enter starts a new, empty text |
| Scanner.GroupTextsKey | barcodebuddy/app/scanner.py:103-118 | Any other key extends only the last text, by the character it types or by nothing |
| Scanner.AssembleIsGroups | barcodebuddy/app/scanner.py:92-118 | With a callback that returns, the callback receives exactly the non-empty texts typed between consecutive Enters, in order and never concatenated. The buffer holds what was typed after the last Enter |
| Scanner.TwoBarcodes | barcodebuddy/app/scanner.py:92-118 | `A`, `1`, Enter, `B`, `2`, Enter delivers `A1` then `B2` and leaves the buffer empty |
| Scanner.BeforeStop | barcodebuddy/app/scanner.py:63-80 | The events seen before the first `stop()` are no more than the steps |
| Scanner.BeforeStopAppend | barcodebuddy/app/scanner.py:63-80 | After a `stop()`, later steps add no events |
| Scanner.BeforeStopStep | barcodebuddy/app/scanner.py:63-80 | One more step adds its event exactly when no `stop()` has happened up to and including it |
| Scanner.BeforeStopDone | barcodebuddy/app/scanner.py:63-80 | Once a `stop()` has happened, the events seen are those before it |
| Scanner.ScannerHandler.constructor | barcodebuddy/app/scanner.py:14-20 | A new handler is not running, keeps its device path and callback, and has an empty buffer and delivered nothing |
| Scanner.ScannerHandler.Start | barcodebuddy/app/scanner.py:22-24 | `start` sets `running` |
| Scanner.ScannerHandler.Stop | barcodebuddy/app/scanner.py:29-31 | `stop` clears `running` |
| Scanner.ScannerHandler.HandleKey | barcodebuddy/app/scanner.py:92-118 | Enter with a non-empty buffer calls the callback once with the buffer. The buffer is then emptied, or kept when the callback raised. Enter with an empty buffer does nothing. Any other key appends its character or nothing and calls nothing |
| Scanner.ScannerHandler.HandleEvent | barcodebuddy/app/scanner.py:77-80 | Only a key-down `EV_KEY` event reaches `_handle_key`. Every other event leaves buffer and calls unchanged |
| Scanner.ScannerHandler.ListenStep | barcodebuddy/app/scanner.py:73-80 | A `stop()` clears the flag. The first event read after that ends the loop unhandled. An event read while running is handled |
| Scanner.ScannerHandler.Listen | barcodebuddy/app/scanner.py:61-90 | A running loop's buffer and calls are exactly those of assembling the key-down keys read before the first `stop()`. A raising callback does not end the loop. A loop that was not running handles nothing |
| ScanLog.Prepend | barcodebuddy/app/main.py:220-222 | The new result comes first and the older ones follow shifted by one. The list grows by one below 50 and keeps its length at 50 |
| ScanLog.PrependCapped | app/main.py:81-83 | From at most 50 entries the list stays at most 50. A full list loses exactly its oldest entry, and a shorter one loses nothing |
| ScanLog.PrependAllNewestFirst | barcodebuddy/app/main.py:220-222 | After several scans the list holds `min(old + new, 50)` entries. The newest scans come first, in reverse order of arrival |
| ScanLog.Recent.constructor | barcodebuddy/app/main.py:44 | The scan list starts empty |
| ScanLog.Recent.Record | barcodebuddy/app/main.py:220-222 | `insert(0, x)` then `pop()` over 50 is `Prepend`, and it keeps the cap |
| BarcodeApp.Handle | barcodebuddy/app/main.py:53-222 | Defines `handle_barcode` on the state before the scan. ModeBarcodes, HandleQuantityPrefix and HandleProductBarcode state its three branches |
| BarcodeApp.QuantityScan | barcodebuddy/app/main.py:89-105 | Defines the quantity branch. QuantityScanOf, QuantityBarcode and QuantityNonNegative state its outcome |
| BarcodeApp.StockKnown | barcodebuddy/app/main.py:137-167 | Defines stocking a product Grocy knows. StockKnownOutcome states its outcome and calls |
| BarcodeApp.CreateAndStock | barcodebuddy/app/main.py:168-214 | Defines creating and stocking an unknown product. CreateAndStockOutcome and UnknownEverywhere state its outcome and calls |
| BarcodeApp.ProductScan | barcodebuddy/app/main.py:107-217 | Defines the product branch. ProductScanOutcome, ProductBarcode and NoGrocyScan state its outcome |
| BarcodeApp.Amount | barcodebuddy/app/main.py:144 | The stock amount is always positive: the quantity when it is positive, otherwise 1 |
| BarcodeApp.ModeBarcodes | barcodebuddy/app/main.py:67-86 | `BBUDDY-ADD` and `BBUDDY-CONSUME` set their mode, keep the quantity, record status `mode` and call nothing |
| BarcodeApp.QuantityField | barcodebuddy/app/main.py:89-91 | Defines `barcode.split('-')[2]`, absent where Python raises `IndexError`. QuantityFieldOfPrefix states which text it gives for `BBUDDY-Q-t` |
| BarcodeApp.QuantityFieldOfPrefix | barcodebuddy/app/main.py:89-91 | The quantity field of `BBUDDY-Q-t` is the text of `t` up to its first `-`, so later fields are ignored |
| BarcodeApp.QuantityScanOf | barcodebuddy/app/main.py:89-99 | A parsable third field is added to the quantity with status `quantity`. A missing or unparsable field gives `error` and keeps the state |
| BarcodeApp.HandleQuantityPrefix | barcodebuddy/app/main.py:89-105 | Every barcode starting with `BBUDDY-Q-` takes the quantity branch |
| BarcodeApp.QuantityBarcode | barcodebuddy/app/main.py:89-105 | A quantity barcode calls nothing and keeps the mode. It adds the parsed field to the quantity, or reports `error` and keeps the quantity |
| BarcodeApp.QuantityNonNegative | barcodebuddy/app/main.py:89-99 | No scan of any kind makes a non-negative quantity negative |
| BarcodeApp.StockCall | barcodebuddy/app/main.py:147-154 | Defines the stock call the mode selects: `add_product` in add mode, `consume_product` in consume mode. StockKnownOutcome, CreateAndStockOutcome and ProductScanOutcome state that a scan's only stock call is this one, last |
| BarcodeApp.Description | barcodebuddy/app/main.py:176 | Defines the description `create_product` receives: brand, ` - `, quantity, stripped of spaces and `-` at both ends. The four Description lemmas state its value |
| BarcodeApp.StockKnownOutcome | barcodebuddy/app/main.py:137-167 | Stocking a known product keeps the mode and makes at most one stock call, as the last call. That call is the mode's call for the id the lookup found, with `Amount(quantity)`. The scan succeeds, and the quantity is reset, exactly when that call was made and accepted |
| BarcodeApp.CreateAndStockOutcome | barcodebuddy/app/main.py:168-214 | The same holds when the product is created from Open Food Facts first. The stock call is for the id `create_product` returned |
| BarcodeApp.DescriptionBrandAndQuantity | barcodebuddy/app/main.py:176 | With a brand and a quantity whose outer ends are not a space or `-`, the description is `brand - quantity` unchanged |
| BarcodeApp.DescriptionBrandOnly | barcodebuddy/app/main.py:176 | Without a quantity the separator is stripped away and the description is the brand |
| BarcodeApp.DescriptionQuantityOnly | barcodebuddy/app/main.py:176 | Without a brand the description is the quantity |
| BarcodeApp.DescriptionEmpty | barcodebuddy/app/main.py:176 | With neither the description is empty |
| BarcodeApp.ScanStockId | barcodebuddy/app/main.py:116-125 | Defines the product a product scan stocks: `product_id` or else `id` of the lookup answer, or the id `create_product` returned for an unknown barcode. ProductScanOutcome states that the stock call uses it |
| BarcodeApp.ProductScanOutcome | barcodebuddy/app/main.py:107-217 | The same holds for every product scan, including a missing product id and a missing Grocy client. The stock call is for `ScanStockId`: the id the lookup found, or the created one |
| BarcodeApp.HandleProductBarcode | barcodebuddy/app/main.py:107-217 | A barcode that is neither a mode nor a quantity barcode takes the product branch |
| BarcodeApp.ProductBarcode | barcodebuddy/app/main.py:107-217 | Every product barcode keeps the mode and stocks `ScanStockId` with the mode's call and amount. It resets the quantity exactly on `success` |
| BarcodeApp.NoGrocyScan | barcodebuddy/app/main.py:215-217 | Without a Grocy client a product barcode records `no_grocy`, calls nothing and keeps mode and quantity |
| BarcodeApp.UnknownEverywhere | barcodebuddy/app/main.py:168-214 | A barcode unknown to Grocy and to Open Food Facts is `not_found`, after exactly the two lookups |
| BarcodeApp.App.constructor | barcodebuddy/app/main.py:29-51 | At import, the client is set only when Grocy is configured and answers. The mode is `add`, the quantity 0 and the scan list empty |
| BarcodeApp.App.HandleBarcode | barcodebuddy/app/main.py:53-222 | The new mode, quantity, result and calls are those of `Handle` on the old mode and quantity. The result is recorded first in the capped list |
| BarcodeApp.App.HandleProduct | barcodebuddy/app/main.py:107-214 | The product branch with a client changes mode and quantity as `Handle` does |
| BarcodeApp.App.CreateProduct | barcodebuddy/app/main.py:168-214 | The create-and-stock branch changes the quantity as `CreateAndStock` does |
| BarcodeApp.App.ManualScan | barcodebuddy/app/main.py:240-250 | A blank or absent barcode is rejected and changes nothing. Any other is handled as a scan of its stripped text |
| LegacyApp.Handle | app/main.py:53-78 | Defines the legacy `handle_barcode`. StatusDecision and AddsOneUnit state its outcome and calls |
| LegacyApp.StatusDecision | app/main.py:53-78 | `no_grocy` exactly without a client, and then nothing is called. "Barcode not found" exactly when the lookup is empty. "Product not found" exactly when the product info is empty. `success` or `error` exactly as Grocy accepts the addition |
| LegacyApp.AddsOneUnit | app/main.py:57-67 | An addition is of one unit, of the id the lookup gave, as the last call |
| LegacyApp.App.constructor | app/main.py:28-40 | The client is set only when Grocy is configured and answers, and the scan list starts empty |
| LegacyApp.App.HandleBarcode | app/main.py:42-83 | Exactly one result, that of `Handle`, is recorded first in the capped list |
| LegacyApp.App.ManualScan | app/main.py:101-111 | A blank barcode records nothing and reports failure. Otherwise the stripped text is handled and recorded |
| AddonConfig.Config.StrippedOrNone | barcodebuddy/app/config.py:21-31 | `None` exactly when the key is missing or its text is all whitespace. Otherwise the stripped, non-empty text |
| AddonConfig.Config.Language | barcodebuddy/app/config.py:68-75 | Always one of `en`, `de`, `fr`, `es`: the stripped setting when it is one of them, otherwise `de` |
| AddonConfig.Config.GrocyUrl | barcodebuddy/app/config.py:21-25 | Defines `grocy_url` as StrippedOrNone of its key. SettingsTrimmed and MissingFileDefaults state its value |
| AddonConfig.Config.GrocyApiKey | barcodebuddy/app/config.py:27-31 | Defines `grocy_api_key` as StrippedOrNone of its key. SettingsTrimmed and MissingFileDefaults state its value |
| AddonConfig.Config.HasGrocy | barcodebuddy/app/config.py:38-41 | Defines `has_grocy`. HasGrocyIff states when it holds |
| AddonConfig.Config.Debug | barcodebuddy/app/config.py:33-36 | Defines `debug`: the flag, off by default. MissingFileDefaults states the default |
| AddonConfig.Config.BarcodeAdd | barcodebuddy/app/config.py:43-46 | Defines `barcode_add`: the text, `BBUDDY-ADD` by default. MissingFileDefaults states the default |
| AddonConfig.Config.BarcodeConsume | barcodebuddy/app/config.py:48-51 | Defines `barcode_consume`: the text, `BBUDDY-CONSUME` by default. MissingFileDefaults states the default |
| AddonConfig.Config.BarcodeQuantityPrefix | barcodebuddy/app/config.py:53-56 | Defines `barcode_quantity_prefix`: the text, `BBUDDY-Q-` by default. MissingFileDefaults states the default |
| AddonConfig.Config.EnableOpenFoodFacts | barcodebuddy/app/config.py:58-61 | Defines `enable_openfoodfacts`: the flag, on by default. MissingFileDefaults states the default |
| AddonConfig.Config.EnableUpcDatabase | barcodebuddy/app/config.py:63-66 | Defines `enable_upcdatabase`: the flag, on by default. MissingFileDefaults states the default |
| AddonConfig.HasGrocyIff | barcodebuddy/app/config.py:38-41 | `has_grocy` exactly when both URL and key are present and not blank. The URL used is the stripped text |
| AddonConfig.SettingsTrimmed | barcodebuddy/app/config.py:21-31 | A configured URL or key never starts or ends with whitespace |
| AddonConfig.LanguageExamples | barcodebuddy/app/config.py:68-75 | ` fr ` gives `fr`, and the unknown code `it` gives `de` |
| AddonConfig.MissingFileDefaults | barcodebuddy/app/config.py:14-75 | Without an options file every getter gives its default: the built-in mode and quantity barcodes, debug off, both lookups on, `de`, and no Grocy |
| Http.BaseUrl | paperless-grocy-magic/app/paperless_client.py:37 | `rstrip('/')` keeps the longest prefix that does not end in `/` and removes nothing but slashes |
| Http.BaseUrlIgnoresSlashes | paperless-grocy-magic/app/grocy_client.py:30 | Any number of trailing slashes on the configured URL gives the same base |
| Http.BaseUrlIdempotent | paperless-grocy-magic/app/grocy_client.py:30 | Stripping the base again changes nothing |
| Http.RequestUrl | paperless-grocy-magic/app/paperless_client.py:47 | The request URL is the stripped base, then `/api`, then the endpoint, whatever slashes the configured URL ends with |
| GrocyClient.TestConnection | paperless-grocy-magic/app/grocy_client.py:73-89 | Connected exactly when `/system/info` answers with a non-empty object, or else the product list answers at all. The fallback is asked only after a failed `/system/info` |
| GrocyClient.GetAllProducts | paperless-grocy-magic/app/grocy_client.py:91-98 | The decoded list when it is non-empty, otherwise no products |
| GrocyClient.MatchingProducts | paperless-grocy-magic/app/grocy_client.py:106 | The search never returns more products than it was given |
| GrocyClient.NewClient | paperless-grocy-magic/app/grocy_client.py:29-31 | Defines what `__init__` keeps: the base URL without trailing slashes, and the key. Http.BaseUrl, BaseUrlIgnoresSlashes and RequestUrl state what the base is and which URLs it gives |
| GrocyClient.SearchProducts | paperless-grocy-magic/app/grocy_client.py:100-108 | Defines `search_products` over the product list answer. MatchingProductsMembers, MatchingProductsAppend and EmptyQueryFindsAll state its content |
| GrocyClient.MatchingProductsMembers | paperless-grocy-magic/app/grocy_client.py:100-108 | A product is found exactly when it is listed and its lower-cased name contains the lower-cased query |
| GrocyClient.MatchingProductsAppend | paperless-grocy-magic/app/grocy_client.py:106 | The search filters each part of the list separately, so the order is kept |
| GrocyClient.EmptyQueryFindsAll | paperless-grocy-magic/app/grocy_client.py:106 | The empty query finds every product, in order |
| GrocyClient.GetProduct | paperless-grocy-magic/app/grocy_client.py:110-115 | A product exactly when the answer is a non-empty object, and then that product |
| GrocyClient.DescriptionUpdate | paperless-grocy-magic/app/grocy_client.py:130-146 | Defines the `update_data` of a price update. NoStoreNoUpdate and PriceInfoAppended state its two stated branches |
| GrocyClient.NoStoreNoUpdate | paperless-grocy-magic/app/grocy_client.py:130-146 | Without a store the update is empty, so the description is untouched |
| GrocyClient.PriceInfoAppended | paperless-grocy-magic/app/grocy_client.py:133-146 | With a store and a description without `Preis:`, the price line becomes the description's new last line, or the whole description when it is blank. The result then holds `Preis:` |
| GrocyClient.UpdateProductPrice | paperless-grocy-magic/app/grocy_client.py:117-161 | A product that cannot be read fails with "not found" before any PUT. Otherwise the update is sent once, and it succeeds exactly when the answer is a non-empty object, so a 204 `{}` fails |
| GrocyClient.CreatedDescription | paperless-grocy-magic/app/grocy_client.py:188 | The description mentions a price exactly when the price is not zero |
| GrocyClient.ProductPayload | paperless-grocy-magic/app/grocy_client.py:190-199 | The payload has the name, description, location and the same unit for purchase and stock. It has `barcode` exactly when one is given |
| GrocyClient.CreateProduct | paperless-grocy-magic/app/grocy_client.py:163-216 | Both lists are asked for, then an empty or missing list is an error before any POST. Otherwise one POST with the first location and first unit. A product exactly when the answer is a non-empty object |
| GrocyClient.PostProduct | paperless-grocy-magic/app/grocy_client.py:181-211 | The POST carries `ProductPayload`, and a product comes back exactly when the answer is a non-empty object |
| GrocyClient.StockPayload | paperless-grocy-magic/app/grocy_client.py:238-245 | The payload has the amount and best-before date, and the price exactly when one is given |
| GrocyClient.AddToStock | paperless-grocy-magic/app/grocy_client.py:218-263 | One POST to the product's stock URL. It succeeds exactly when any answer arrives, so a 204 `{}` succeeds |
| PaperlessClient.FieldIndex | paperless-grocy-magic/app/paperless_client.py:25-30 | The position of the first entry for the field id, or none exactly when no entry has it |
| PaperlessClient.NewClient | paperless-grocy-magic/app/paperless_client.py:36-38 | Defines what `__init__` keeps: the base URL without trailing slashes, and the token. Http.BaseUrl, BaseUrlIdempotent and RequestUrl state what the base is and which URLs it gives |
| PaperlessClient.CustomFieldValue | paperless-grocy-magic/app/paperless_client.py:25-30 | Defines `get_custom_field_value`. CustomFieldValueFirst states which entry gives the value |
| PaperlessClient.CustomFieldValueFirst | paperless-grocy-magic/app/paperless_client.py:25-30 | The lookup gives the value of the first entry for the id, or `None` when no entry has it |
| PaperlessClient.IdOfFirstNamed | paperless-grocy-magic/app/paperless_client.py:91-94 | An id found belongs to an entry with that name |
| PaperlessClient.FindId | paperless-grocy-magic/app/paperless_client.py:87-107 | No listing, or one without `results`, finds no id |
| PaperlessClient.IdOfFirstNamedIsFirst | paperless-grocy-magic/app/paperless_client.py:102-105 | The first entry with the name decides the id, even when it has none |
| PaperlessClient.IsUnprocessed | paperless-grocy-magic/app/paperless_client.py:140-143 | Defines the unprocessed test: the field was never set or is false. UnprocessedMembers states the filter built on it |
| PaperlessClient.Unprocessed | paperless-grocy-magic/app/paperless_client.py:138-146 | The filter never keeps more documents than it was given |
| PaperlessClient.UnprocessedMembers | paperless-grocy-magic/app/paperless_client.py:138-146 | A document is kept exactly when it is listed and its field is unset or false |
| PaperlessClient.UnprocessedAppend | paperless-grocy-magic/app/paperless_client.py:139-143 | The filter works on each part separately, so the kept documents stay in order |
| PaperlessClient.FilterUnprocessed | paperless-grocy-magic/app/paperless_client.py:139-143 | The loop keeps exactly `Unprocessed` of the documents |
| PaperlessClient.GetDocumentsByTag | paperless-grocy-magic/app/paperless_client.py:109-148 | No tag id or no listing gives no documents. A processed-field name whose id is found and non-zero filters to the unprocessed documents. Otherwise all listed documents are returned |
| PaperlessClient.UpdatedFields | paperless-grocy-magic/app/paperless_client.py:183-191 | Defines `custom_fields` after the update. UpdatedFieldsLookup and FieldIndexOfFirst state its content |
| PaperlessClient.UpdatedFieldsLookup | paperless-grocy-magic/app/paperless_client.py:180-191 | After the update the lookup gives the new value. An existing field keeps the length and changes only its first entry. A new field is appended at the end |
| PaperlessClient.FieldIndexOfFirst | paperless-grocy-magic/app/paperless_client.py:184-188 | An entry with no earlier entry for the id is the one the lookup finds |
| PaperlessClient.UpdateOrAppend | paperless-grocy-magic/app/paperless_client.py:183-191 | The loop with its flag and `break` gives `UpdatedFields` |
| PaperlessClient.UpdateCustomField | paperless-grocy-magic/app/paperless_client.py:166-202 | No field id, or an unreadable document, fails before any PATCH. Otherwise the updated field list is sent, and any answer, `{}` included, succeeds |
| ProductMatcher.Combined | paperless-grocy-magic/app/product_matcher.py:67-77 | The combined score is the maximum of the four strategies on the lower-cased names, and lies in 0..100 when they do |
| ProductMatcher.BestScore | paperless-grocy-magic/app/product_matcher.py:62-81 | Defines `best_score` after the loop. BestScoreIsMaximum and BestScoreInRange state its value |
| ProductMatcher.BestIndex | paperless-grocy-magic/app/product_matcher.py:62-81 | Defines the position of `best_product` after the loop. BestIndexIsFirst states which product it is |
| ProductMatcher.BestScoreIsMaximum | paperless-grocy-magic/app/product_matcher.py:62-81 | The best score is at least 0 and at least every score. When positive it is reached by some product |
| ProductMatcher.BestIndexIsFirst | paperless-grocy-magic/app/product_matcher.py:79-81 | A product is chosen exactly when some score is positive. It is the first with the highest score, since ties do not replace it |
| ProductMatcher.MatchOutcome | paperless-grocy-magic/app/product_matcher.py:47-89 | An empty list gives no product and 0. Otherwise the best score is kept, and a product is returned exactly when that score reaches the threshold. It is then a first-best product |
| ProductMatcher.BestScoreInRange | paperless-grocy-magic/app/product_matcher.py:71-77 | With fuzzywuzzy's range every best score lies in 0..100 |
| ProductMatcher.ProductMatch.constructor | paperless-grocy-magic/app/product_matcher.py:14-17 | A match holds its item, product and score and is not yet marked as created |
| ProductMatcher.ProductMatch.IsMatch | paperless-grocy-magic/app/product_matcher.py:19-22 | Defines `is_match`: the match carries a Grocy product, whatever its score. IsNewProduct states that `is_new_product` is its negation, MatchedMembers that `get_matched_items` keeps exactly these matches |
| ProductMatcher.ProductMatch.IsNewProduct | paperless-grocy-magic/app/product_matcher.py:19-27 | `is_new_product` is exactly the negation of `is_match` |
| ProductMatcher.ScanProducts | paperless-grocy-magic/app/product_matcher.py:62-81 | The loop ends with the best score and the first-best position over the combined scores |
| ProductMatcher.FindBestMatch | paperless-grocy-magic/app/product_matcher.py:47-89 | A new match for the item, with the product and score of `MatchOutcome` |
| ProductMatcher.MatchAll | paperless-grocy-magic/app/product_matcher.py:91-112 | Exactly one new, distinct match per item, in the items' order, each as `MatchOutcome` decides |
| ProductMatcher.Matched | paperless-grocy-magic/app/product_matcher.py:118-120 | The matched list is no longer than the matches |
| ProductMatcher.Unmatched | paperless-grocy-magic/app/product_matcher.py:114-116 | The unmatched list is no longer than the matches |
| ProductMatcher.Partition | paperless-grocy-magic/app/product_matcher.py:114-120 | The lengths of the matched and unmatched lists add up to the number of matches |
| ProductMatcher.MatchedMembers | paperless-grocy-magic/app/product_matcher.py:118-120 | The matched list holds exactly the matches with a product |
| ProductMatcher.UnmatchedMembers | paperless-grocy-magic/app/product_matcher.py:114-116 | The unmatched list holds exactly the items of the matches without a product |
| ProductMatcher.PartitionAppend | paperless-grocy-magic/app/product_matcher.py:114-120 | Both lists are taken part by part, so both keep the order of the matches |
| PriceUpdater.UpdateOne | paperless-grocy-magic/app/price_updater.py:106-137 | One matched item counts once, as updated or failed, and a failure leaves one message. It is updated exactly when the price update and the stock addition both succeed |
| PriceUpdater.UpdateTally | paperless-grocy-magic/app/price_updater.py:106-137 | Defines the update loop over the pending items. UpdateTallyBalanced states its counts and UpdatePrices is proved equal to it |
| PriceUpdater.UpdateTallyBalanced | paperless-grocy-magic/app/price_updater.py:106-137 | `updated + failed` is the number of matched items, and there is one error per failure |
| PriceUpdater.PendingOfAt | paperless-grocy-magic/app/price_updater.py:106-108 | The loop reads the product id and name and the receipt price of each matched item, in order |
| PriceUpdater.PendingAt | paperless-grocy-magic/app/price_updater.py:106-108 | Reading the `i`-th matched item gives its pending entry |
| PriceUpdater.UpdateItem | paperless-grocy-magic/app/price_updater.py:107-137 | The loop body for one item adds up as `UpdateOne` |
| PriceUpdater.UpdatePrices | paperless-grocy-magic/app/price_updater.py:106-137 | The update loop adds up as `UpdateTally` over the matched items |
| PriceUpdater.CreateOne | paperless-grocy-magic/app/price_updater.py:141-175 | One unmatched item counts once, as created or unmatched, and a failure leaves one message. A product is recorded exactly when it was created |
| PriceUpdater.CreateTally | paperless-grocy-magic/app/price_updater.py:141-175 | Defines the create loop over the new items. CreateTallyBalanced states its counts and CreateProducts is proved equal to it |
| PriceUpdater.CreateTallyBalanced | paperless-grocy-magic/app/price_updater.py:141-175 | `created + unmatched` is the number of unmatched items, and there is one error per failure |
| PriceUpdater.FirstFor | paperless-grocy-magic/app/price_updater.py:161-165 | The position of the first match for the item, or none exactly when no match has it |
| PriceUpdater.MarkCreated | paperless-grocy-magic/app/price_updater.py:161-165 | Only the first match for the item gets the new product and is marked as created. Every other match is unchanged |
| PriceUpdater.FirstForIs | paperless-grocy-magic/app/price_updater.py:161-165 | A match for the item with none before it is the one marked |
| PriceUpdater.CreateItem | paperless-grocy-magic/app/price_updater.py:142-175 | The loop body for one item adds up as `CreateOne` |
| PriceUpdater.CreatedFor | paperless-grocy-magic/app/price_updater.py:156-165 | Defines the match object the create loop records a product in: the first match of an unmatched item that was created and stocked |
| PriceUpdater.CreatedForSnoc | paperless-grocy-magic/app/price_updater.py:141-165 | One more unmatched item adds exactly its own first match to `CreatedFor`, and only when it was created and stocked |
| PriceUpdater.CreateProducts | paperless-grocy-magic/app/price_updater.py:141-175 | The create loop adds up as `CreateTally`. A match object gets the product Grocy created for its item and is marked as created exactly when it is the first match of an unmatched item that was created and stocked (`CreatedFor`). Every other match keeps its product and flag |
| PriceUpdater.ItemsSplit | paperless-grocy-magic/app/price_updater.py:99-100 | Every item is either matched or new |
| PriceUpdater.PartitionOfMatches | paperless-grocy-magic/app/price_updater.py:96-100 | The matched and unmatched lists are the matched and the new items |
| PriceUpdater.MatchReceipt | paperless-grocy-magic/app/price_updater.py:94-103 | Step 3 gives distinct fresh matches, none marked as created, as `match_all` decides, split into the matched and the new items |
| PriceUpdater.CreatedAt | paperless-grocy-magic/app/price_updater.py:156-165 | Defines, by position, the match the create loop records a product in: the `i`-th match when it is the first one of its item, that item is unmatched, and Grocy created and stocked it |
| PriceUpdater.CreatedForAt | paperless-grocy-magic/app/price_updater.py:161-165 | For distinct match objects, `CreatedFor` of the `i`-th match holds exactly when `CreatedAt` holds at `i` |
| PriceUpdater.MatchesAfterRun | paperless-grocy-magic/app/price_updater.py:96-97 | Defines `result.matches` after steps 3 to 5: one match per item with its score, the created product and the mark exactly where `CreatedAt` holds, the matched product otherwise |
| PriceUpdater.PriceUpdateResult.constructor | paperless-grocy-magic/app/price_updater.py:12-23 | A new result has no receipt, no matches, `success` false, all counters 0 and no errors |
| PriceUpdater.PriceUpdateResult.Record | paperless-grocy-magic/app/price_updater.py:97 | Storing the matches and the outcome leaves the receipt as it was |
| PriceUpdater.RunSummary | paperless-grocy-magic/app/price_updater.py:106-186 | Defines the counters, errors and success flag of steps 3 to 5. RunSummaryBalanced states how they add up |
| PriceUpdater.RunSummaryBalanced | paperless-grocy-magic/app/price_updater.py:106-186 | Every item is counted exactly once: a matched one as updated or failed, a new one as created or unmatched. There is one message per failure. The run succeeds exactly when anything was updated or created |
| PriceUpdater.RunCalls | paperless-grocy-magic/app/price_updater.py:106-186 | Defines the writing calls of steps 3 to 5: the price updates of the matched items in order, then the creations. ProcessReceiptText states that a parsed receipt with products makes exactly these calls |
| PriceUpdater.ProcessReceiptText | paperless-grocy-magic/app/price_updater.py:58-194 | A text that does not parse, or an empty product list, ends the run with one error, nothing counted and no write. Otherwise the outcome and the calls are those of steps 3 to 5 on the parsed items, and `result.matches` is `MatchesAfterRun`: one match per item with the score of matching, holding the created product and marked exactly at the positions `CreatedAt` picks, and holding the matched product, unmarked, everywhere else |
| PriceUpdater.Reconcile | paperless-grocy-magic/app/price_updater.py:94-186 | Steps 3 to 5 tally the updates of the matched items and the creations of the new ones. The matches end as `MatchesAfterRun`: the first match of each new item that Grocy created and stocked holds that product and is marked as created, and every other match is as matching left it |
| PriceUpdater.CountsAsWritten | paperless-grocy-magic/app/price_updater.py:222-232 | Defines the counts of the `process_receipt` loop as written, testing the reply pair. CountsAsWrittenAllUpdated and RefusedUpdateCounted state them |
| PriceUpdater.Counts | paperless-grocy-magic/app/price_updater.py:222-232 | Defines the counts with the pair's `success` part as the test. CountsSplit and RefusedUpdateCounted state them |
| PriceUpdater.ReceiptSummaryAsWritten | paperless-grocy-magic/app/price_updater.py:211-235 | Defines the outcome of `process_receipt` as written. ReceiptSummaryAsWrittenAllUpdated states its counts and success, and ProcessReceipt is proved to give it |
| PriceUpdater.ReceiptSummary | paperless-grocy-magic/app/price_updater.py:211-235 | Defines that outcome with refused updates counted as failed. ReceiptSummaryCounts states its counts and success, and ProcessReceiptCorrected is proved to give it |
| PriceUpdater.CountsAsWrittenAllUpdated | paperless-grocy-magic/app/price_updater.py:222-232 | As written, every matched item counts as updated and none as failed |
| PriceUpdater.CountsSplit | paperless-grocy-magic/app/price_updater.py:222-232 | Corrected, the accepted updates count as updated and the rest as failed |
| PriceUpdater.RefusedUpdateCounted | paperless-grocy-magic/app/price_updater.py:222-232 | One refused update counts as updated as written, and as failed when corrected |
| PriceUpdater.ReceiptSummaryAsWrittenAllUpdated | paperless-grocy-magic/app/price_updater.py:222-235 | As written, `updated` is the number of matched items, `failed` is 0, and the run succeeds exactly when some item matched |
| PriceUpdater.ReceiptSummaryCounts | paperless-grocy-magic/app/price_updater.py:222-235 | Corrected, `updated` is the number of accepted updates, `updated + failed` the number of matched items. The run succeeds exactly when some update was accepted |
| PriceUpdater.UpdateMatchedAsWritten | paperless-grocy-magic/app/price_updater.py:215-235 | Matching and the update loop as written give `ReceiptSummaryAsWritten`, with one price update per matched item |
| PriceUpdater.UpdateMatched | paperless-grocy-magic/app/price_updater.py:215-235 | The same with the pair's `success` part as the condition gives `ReceiptSummary` |
| PriceUpdater.ProcessReceipt | paperless-grocy-magic/app/price_updater.py:196-237 | `process_receipt` as written: an empty product list ends the run with one error. Otherwise the matches are those of `match_all`, one price update is sent per matched item, and the outcome counts every matched item as updated |
| PriceUpdater.ProcessReceiptCorrected | paperless-grocy-magic/app/price_updater.py:196-237 | The same with refused updates counted as failed |
| PriceUpdater.UpdateCalls | paperless-grocy-magic/app/price_updater.py:222-227 | One price update is sent per matched item |
| PriceUpdater.UpdateCallsAt | paperless-grocy-magic/app/price_updater.py:222-227 | The `i`-th update is for the `i`-th matched item, with its price and the store |
| PriceUpdater.CountUpdatesAsWritten | paperless-grocy-magic/app/price_updater.py:222-232 | The loop as written counts by the truthiness of the returned pair |
| PriceUpdater.CountUpdates | paperless-grocy-magic/app/price_updater.py:222-232 | The loop with the pair's `success` part as the condition counts by that part |
| ReceiptParser.FirstMatchLeast | paperless-grocy-magic/app/receipt_parser.py:62 | A search finds the leftmost matching position, and finds none only when nothing in range matches |
| ReceiptParser.FirstMatchIs | paperless-grocy-magic/app/receipt_parser.py:71 | A matching position with none before it is the one found |
| ReceiptParser.AmountAt | paperless-grocy-magic/app/receipt_parser.py:44-47 | An amount found is digits, a comma or point, and digits (exactly two where the pattern says `\d{2}`). It consumes at least one character |
| ReceiptParser.AmountAtText | paperless-grocy-magic/app/receipt_parser.py:44-47 | The amount found is exactly the text it consumed |
| ReceiptParser.CommaIsPoint | paperless-grocy-magic/app/receipt_parser.py:109-111 | `_parse_price` reads a comma and a point alike |
| ReceiptParser.ParsePriceOfAmount | paperless-grocy-magic/app/receipt_parser.py:109-111 | Every amount the patterns capture parses, to its decimal value |
| ReceiptParser.Price | paperless-grocy-magic/app/receipt_parser.py:109-111 | A captured amount is never negative |
| ReceiptParser.ParsePrice | paperless-grocy-magic/app/receipt_parser.py:109-111 | Defines `_parse_price`. CommaIsPoint and ParsePriceOfAmount state its value |
| ReceiptParser.PriceTail | paperless-grocy-magic/app/receipt_parser.py:44 | The price that closes a product line has exactly two decimals |
| ReceiptParser.ProductLine | paperless-grocy-magic/app/receipt_parser.py:44 | A product line has a non-empty name and a well-formed price |
| ReceiptParser.WeightLine | paperless-grocy-magic/app/receipt_parser.py:45 | A weight line gives a well-formed kilogram figure |
| ReceiptParser.PerKgTailLastVisible | paperless-grocy-magic/app/receipt_parser.py:45 | A line ending in `kg x … EUR/kg` ends visibly in `g` |
| ReceiptParser.TimesTailLastVisible | paperless-grocy-magic/app/receipt_parser.py:45 | A line ending in `x … EUR/kg` ends visibly in `g` |
| ReceiptParser.UnitPriceTailLastVisible | paperless-grocy-magic/app/receipt_parser.py:45 | A line ending in `… EUR/kg` ends visibly in `g` |
| ReceiptParser.EurPerKgLastVisible | paperless-grocy-magic/app/receipt_parser.py:45 | A line ending in `EUR/kg` and whitespace ends visibly in `g` |
| ReceiptParser.LastVisibleAfter | paperless-grocy-magic/app/receipt_parser.py:44-45 | A visible character followed only by whitespace is the line's last visible one |
| ReceiptParser.PriceTailLastVisible | paperless-grocy-magic/app/receipt_parser.py:44 | A price tail ends visibly in its tax class `A` or `B`, or in a star |
| ReceiptParser.ProductLineLastVisible | paperless-grocy-magic/app/receipt_parser.py:44 | A product line ends visibly in `A`, `B` or a star |
| ReceiptParser.WeightLineLastVisible | paperless-grocy-magic/app/receipt_parser.py:45 | A weight line ends visibly in `g` |
| ReceiptParser.WeightLineIsNoProduct | paperless-grocy-magic/app/receipt_parser.py:90-95 | A weight line is never a product line, so consuming it loses no item |
| ReceiptParser.IsRewe | paperless-grocy-magic/app/receipt_parser.py:55-59 | Defines the store test of `parse`. IsReweIff states that it holds exactly when the text contains `REWE` |
| ReceiptParser.IsReweIff | paperless-grocy-magic/app/receipt_parser.py:55-59 | The store test holds exactly when the text contains `REWE` |
| ReceiptParser.DateAt | paperless-grocy-magic/app/receipt_parser.py:46 | A `Datum:` match captures two, two and four digits |
| ReceiptParser.ValidDate | paperless-grocy-magic/app/receipt_parser.py:64-67 | Defines the year, month and day `datetime(year, month, day)` accepts: year 1 to 9999, month 1 to 12, day within the month, February 29 in leap years only. DateOf and DateOfFirstMatch state that the date is set exactly when the first match satisfies it |
| ReceiptParser.DateAtYearBelowLimit | paperless-grocy-magic/app/receipt_parser.py:46-67 | The four year digits of a `Datum:` match never exceed 9999, so the year test can reject only year 0 |
| ReceiptParser.DateOf | paperless-grocy-magic/app/receipt_parser.py:62-68 | A date is set only when it is a valid calendar date |
| ReceiptParser.TotalAt | paperless-grocy-magic/app/receipt_parser.py:47 | A `SUMME EUR` match captures a well-formed amount |
| ReceiptParser.TotalOf | paperless-grocy-magic/app/receipt_parser.py:71-73 | A total found is never negative |
| ReceiptParser.UpperRun | paperless-grocy-magic/app/receipt_parser.py:119 | The length of the leading run of ASCII capitals |
| ReceiptParser.StripCode | paperless-grocy-magic/app/receipt_parser.py:119 | Defines the removal of one leading code. StripCodeSpec states exactly what is removed |
| ReceiptParser.StripCodeSpec | paperless-grocy-magic/app/receipt_parser.py:119 | At most one code is removed: the one `^[A-Z]{1,3}[-\s]` matches, or nothing when it matches nowhere |
| ReceiptParser.CapitalizedWord | paperless-grocy-magic/app/receipt_parser.py:122 | A capitalised word is still a word, with its first letter upper case and the rest lower case |
| ReceiptParser.CleanProductName | paperless-grocy-magic/app/receipt_parser.py:113-124 | Defines `_clean_product_name`. CleanProductNameShape and CleanProductNameDropsCode state its result |
| ReceiptParser.CleanProductNameShape | paperless-grocy-magic/app/receipt_parser.py:113-124 | The cleaned name's words are the capitalised words of the code-stripped name. They are separated by single spaces, with no whitespace at either end |
| ReceiptParser.CleanProductNameDropsCode | paperless-grocy-magic/app/receipt_parser.py:118-124 | A leading code such as `SW-` or `BW ` is dropped and the words after it are capitalised |
| ReceiptParser.UpperRunOf | paperless-grocy-magic/app/receipt_parser.py:119 | A run of capitals followed by anything else is that run |
| ReceiptParser.ReceiptItem.constructor | paperless-grocy-magic/app/receipt_parser.py:13-18 | The item keeps the stripped name, price, quantity and unit. Its price per unit times a positive quantity is the price, and it is the price itself otherwise |
| ReceiptParser.ItemOf | paperless-grocy-magic/app/receipt_parser.py:84-100 | Defines the item built from a product line and an optional weight line. ScanItemsFollowProducts, ScanItemsUnits and ScanItemsWeighed state its fields |
| ReceiptParser.Receipt.constructor | paperless-grocy-magic/app/receipt_parser.py:29-34 | A new receipt has no store, date, items or total, and empty text |
| ReceiptParser.Classify | paperless-grocy-magic/app/receipt_parser.py:76-82 | One pattern result per line |
| ReceiptParser.ClassifyWellMatched | paperless-grocy-magic/app/receipt_parser.py:82-95 | Captured amounts are well formed, and no line is both a weight line and a product line |
| ReceiptParser.ScanEntries | paperless-grocy-magic/app/receipt_parser.py:76-104 | Every entry the line scanner forms is well formed |
| ReceiptParser.ItemsOf | paperless-grocy-magic/app/receipt_parser.py:84-100 | One item per entry |
| ReceiptParser.ItemsOfAppend | paperless-grocy-magic/app/receipt_parser.py:100-101 | The items of two runs of entries are the items of each, in order |
| ReceiptParser.ReweParse | paperless-grocy-magic/app/receipt_parser.py:49-107 | The receipt returned holds what `ParseSpec` says, and its items are new objects. No receipt exactly when `ParseSpec` gives none |
| ReceiptParser.ParseSpec | paperless-grocy-magic/app/receipt_parser.py:49-107 | Defines what `parse` gives for a text. ParseSpecStore, DateOfFirstMatch, TotalOfFirstMatch and ScanItemsFollowProducts state its fields |
| ReceiptParser.CollectItems | paperless-grocy-magic/app/receipt_parser.py:76-104 | The loop appends exactly the items of the line scanner, each a new object |
| ReceiptParser.CollectLine | paperless-grocy-magic/app/receipt_parser.py:78-104 | One pass moves strictly forward and appends the items of the entries it consumed |
| ReceiptParser.MatchAt | paperless-grocy-magic/app/receipt_parser.py:79-95 | One pass finds the line's product, if any, and the weight line right after it. The scan goes on after both |
| ReceiptParser.AppendItem | paperless-grocy-magic/app/receipt_parser.py:100-101 | Appending adds exactly the entry's item |
| ReceiptParser.LineSkipped | paperless-grocy-magic/app/receipt_parser.py:82-104 | A line that is no product line adds nothing |
| ReceiptParser.LineTaken | paperless-grocy-magic/app/receipt_parser.py:82-95 | A product line adds its entry, and a weight line right after it is consumed with it |
| ReceiptParser.NewItem | paperless-grocy-magic/app/receipt_parser.py:84-100 | The new item has the entry's values: a `kg` quantity from a weight line, otherwise one `Stk` |
| ReceiptParser.ScanEntriesSkip | paperless-grocy-magic/app/receipt_parser.py:82-104 | A line that is no product line adds no entry |
| ReceiptParser.ScanEntriesTake | paperless-grocy-magic/app/receipt_parser.py:82-104 | A product line adds one entry with the weight line after it, and the scan resumes after the consumed lines |
| ReceiptParser.ItemsDataSnoc | paperless-grocy-magic/app/receipt_parser.py:100-101 | Appending an item appends its values |
| ReceiptParser.ScanEntriesProducts | paperless-grocy-magic/app/receipt_parser.py:76-104 | The entries are the product lines, one each and in order |
| ReceiptParser.ScanItemsFollowProducts | paperless-grocy-magic/app/receipt_parser.py:82-101 | One item per product line, in line order, with that line's cleaned name and price |
| ReceiptParser.ScanEntriesBound | paperless-grocy-magic/app/receipt_parser.py:77-104 | There are never more entries than lines |
| ReceiptParser.ScanItemsBound | paperless-grocy-magic/app/receipt_parser.py:77-104 | There are never more items than lines |
| ReceiptParser.ScanItemsUnits | paperless-grocy-magic/app/receipt_parser.py:86-100 | Every item has a non-negative price. Its unit is `kg` with the weight line's figure when a weight line follows its product line, and `Stk` with quantity 1 otherwise |
| ReceiptParser.ScanItemsWeighed | paperless-grocy-magic/app/receipt_parser.py:90-95 | A product line followed by a weight line gives one `kg` item, and the scan resumes after the weight line |
| ReceiptParser.ParseSpecStore | paperless-grocy-magic/app/receipt_parser.py:55-59 | The parser gives no receipt exactly when the text lacks `REWE`. Otherwise the store is `REWE` and the text is kept |
| ReceiptParser.DateOfFirstMatch | paperless-grocy-magic/app/receipt_parser.py:62-68 | The date comes from the first `Datum:` match. It is set when its digits form a calendar date and absent otherwise |
| ReceiptParser.DateOfNoMatch | paperless-grocy-magic/app/receipt_parser.py:62-63 | Without a `Datum:` match there is no date |
| ReceiptParser.TotalOfFirstMatch | paperless-grocy-magic/app/receipt_parser.py:71-73 | The total is the amount of the first `SUMME EUR` match |
| ReceiptParser.FactoryParse | paperless-grocy-magic/app/receipt_parser.py:138-160 | Whatever the hint, known, unknown or absent, the factory gives what the REWE parser gives |
| ReceiptParser.ParseReceipt | paperless-grocy-magic/app/receipt_parser.py:164-166 | `parse_receipt` gives what the REWE parser gives, for any hint |
| Decimal.ParseFloat | paperless-grocy-magic/app/receipt_parser.py:111 | `float()` of text that does not start with a minus sign, once stripped, is never negative |
| Decimal.ParseFloatFixed | paperless-grocy-magic/app/receipt_parser.py:111 | `float()` of `digits.digits` is its decimal value |
| Decimal.ParseFloatDigits | barcodebuddy/app/main.py:91 | `float()` of a digit string is its integer value |
| Decimal.ParseFloatNoMinus | barcodebuddy/app/main.py:91 | Text without a minus sign never parses to a negative number |
| Decimal.DigitsValueOfNatText | paperless-grocy-magic/app/grocy_client.py:123 | The decimal rendering of a number reads back as that number |

## Left out

- HTTP itself is left out: `requests` sessions, headers, timeouts, status
  codes, JSON decoding and exceptions. Each request is a value the model
  reports. Each answer is an oracle (`Reply`: none, `{}` or a body).
- Logging, Flask routes, templates and `jsonify` are left out. So are the
  `timestamp` of scan results (`datetime.now()`) and today's date. The date
  is a parameter of `add_to_stock`.
- The evdev device side of `ScannerHandler` is left out: opening the device,
  `_find_device` and auto-detection by name, the thread, `join`, and the
  5-second sleep and retry after device errors. The model takes the events
  read, and the `stop()` calls between them, as one input sequence. Raw HID
  reports and several devices at once do not exist in the code and are not
  modelled.
- Scanner.ScannerHandler.Listen treats every exception the callback raises
  as the generic `except Exception` case, which keeps the device and reads
  on. A callback that raises `OSError` or `IOError` would instead reach the
  handler of `barcodebuddy/app/scanner.py:82-86`, which drops the device and
  reconnects. That path is not modelled.
- The Grocy and Open Food Facts lookup clients are left out
  (`barcodebuddy/app/grocy.py`, `openfoodfacts.py`, `upcdatabase.py`,
  `eansearch.py`). They are thin maps from JSON to dictionaries, so their
  answers are oracles. `grocy.py` has no `create_product` or
  `add_barcode_to_product`, though `barcodebuddy/app/main.py:179,183` call
  them. The model takes their results as oracle answers too.
- `barcodebuddy/app/main.py:225` reads `config.scanner_device`, which
  `config.py` does not define. Only Flask start-up uses it, so it is not
  modelled.
- The mode and quantity barcodes are the literals of
  `barcodebuddy/app/main.py:67,77,89`, as the code has them. The settings
  `barcode_add`, `barcode_consume` and `barcode_quantity_prefix` are modelled
  as getters but `handle_barcode` does not read them.
- fuzzywuzzy is uninterpreted: the four scorers are function parameters.
  Their 0..100 range is a hypothesis (`InRange`) where a lemma needs it.
- Floating point is left out. Prices, quantities and scores are exact
  `real` or `int` values, so accumulated rounding of the quantity and the
  `price_per_unit` division are exact here. `float()` is modelled on plain
  decimal text with an optional sign and surrounding whitespace. Text such as
  `inf`, `nan` or `1e3` counts as unparsable (`None`), though Python accepts
  it. So do digits grouped with underscores and non-ASCII digits:
  `float("1_0")` is `10.0`, so `BBUDDY-Q-1_0` adds 10 in `main.py` while
  `ParseFloat` makes it an invalid quantity. The threshold is the converted integer `int(threshold * 100)`, so that
  conversion is not modelled. `{price:.2f}` and `str(price)` are function
  parameters.
- GrocyClient.DescriptionUpdate: the branch for a description that already
  holds `Preis:` uses the `re.sub` replacement as a function parameter. Only
  the append branch and the empty update are stated.
- `test_connection` and `download_document` of the Paperless client are left
  out: they make requests with no list or string logic.
- `to_dict` of `PriceUpdateResult` is presentation only.
  `paperless-grocy-magic/app/config.py` (defaulted getters) and
  `paperless-grocy-magic/app/main.py` (status endpoints and a stub) are not
  part of this model.
- Loading the options file as JSON is left out: AddonConfig.Load takes the
  parsed dictionary, or `None` for a missing file.
- AddonConfig.Config.WellTyped is required by every getter: a text option
  holds text and a flag option holds a boolean, as the add-on's option schema
  declares them. Wrong-typed values are not modelled. A `null` or non-string
  `grocy_url`, `grocy_api_key` or `language` would make `.strip()` raise
  `AttributeError` (`barcodebuddy/app/config.py:24,30,71`). A non-boolean
  `debug`, `enable_openfoodfacts` or `enable_upcdatabase` would be returned
  as it is, so a string `"false"` would count as true
  (`barcodebuddy/app/config.py:36,61,66`).
- The sample receipt of `paperless-grocy-magic/app/test_parser.py` (8 items,
  `SUMME EUR 40,37`) is not worked through as a lemma. Its shape is covered by
  `CleanProductNameDropsCode` and `ScanItemsWeighed`.
- ReceiptParser.ProductLine: the lazy `(.+?)` choice of the shortest name is
  stated through FirstMatch and FirstMatchLeast. The function's own ensures
  does not repeat it.
- `\s`, `\d`, `str.lower`, `str.capitalize` and `str.split()` are modelled
  on ASCII and Latin-1-like letters. Unicode case mapping and Unicode
  whitespace beyond those are left out.
- `ReceiptItem` is a class with fields that are never reassigned. The price
  updater tells items apart by identity (`m.receipt_item == item`), so object
  identity is kept.
- PriceUpdater.Grocy gives each writing call's answer as a function of the
  call's arguments alone. Two identical calls in one run therefore get the
  same answer. A Grocy that accepts a first `create_product("Milch", 1.19)`
  and refuses a second one as a duplicate, or answers a repeated
  `update_product_price` or `add_to_stock` on the same product differently,
  is not modelled. Every contract of `PriceUpdater` holds for servers whose
  answers depend only on the arguments.
- ProductMatcher.FindBestMatch requires `NoCrash`. With a threshold of at
  most 0 and no positive score, line 85 reads `best_product.name` while
  `best_product` is `None`, and Python raises there. The model excludes that
  input rather than modelling the exception. The same precondition carries
  over to ProductMatcher.MatchOutcome and ProductMatcher.MatchAll, and, as
  `AllSafe` or `Matchable`, to PriceUpdater.MatchReceipt, Reconcile,
  ProcessReceiptText, ProcessReceipt, ProcessReceiptCorrected,
  UpdateMatched, UpdateMatchedAsWritten, RunSummary, RunCalls,
  ReceiptSummary, ReceiptSummaryAsWritten, MatchedPending, NewItems,
  ItemsSplit, MatchedAs, PartitionOfMatches, MatchesAfterRun,
  RunSummaryBalanced, ReceiptSummaryCounts and
  ReceiptSummaryAsWrittenAllUpdated: none of them says what happens on such
  an input.
- PriceUpdater.PriceUpdateResult.Record sets the counters and errors in one
  step. The Python code increments them as it goes. The loops that do the
  counting are modelled separately (`UpdatePrices`, `CreateProducts`).

## Findings

| source | as written | input that shows it | evidently intended | confidence | as-written member | corrected member |
|---|---|---|---|---|---|---|
| paperless-grocy-magic/app/price_updater.py:222-232 | `success = update_product_price(...)` binds the whole `(bool, str)` pair, and `if success:` tests the pair, which is never empty and so always true | Grocy refuses one update: `update_product_price` returns `(False, "Grocy API returned empty response")`, yet `updated_count` becomes 1 and `failed_count` stays 0 | test the first element of the pair (`success, error = ...`), as `process_receipt_text` does at line 110 | high, not executed | PriceUpdater.ProcessReceipt (with PriceUpdater.RefusedUpdateCounted and PriceUpdater.ReceiptSummaryAsWrittenAllUpdated) | PriceUpdater.ProcessReceiptCorrected (with PriceUpdater.CountsSplit and PriceUpdater.ReceiptSummaryCounts) |
