# shelfPulse core, modelled in Dafny

shelfPulse is a perishable-inventory service. Six trained models score products for:

- spoilage risk;
- days to expiry;
- forecast demand;
- dead stock;
- suggested markdown;
- a sustainability label.

A batch job caches each product's scores as its one "latest" prediction row. A Flask API serves the scores. This project models the decision logic around the models. The models themselves are not modelled: they are opaque parameters.

- `results.dfy` (`Results`): `Option` and `Result`. Python exceptions become `Err` values that propagate with `:-`.
- `values.dfy` (`Values`): the cell values the service handles, and Python's `round`, `round(x, n)`, `int()` on floats and `bool()` on numbers.
- `schema.dfy` (`Schema`): the `products` and `predictions` tables as row datatypes, their column lists, and the `features`/`prediction` blocks of a lookup response.
- `estimators.dfy` (`Estimators`): a fitted label encoder's `inverse_transform`.
- `predict.dfy` (`Predict`): `predict_single_product`.
  - The frame must have exactly one row.
  - Each estimator selects its trained columns.
  - It builds the seven-key result, with the markdown trigger derived from the rounded percentage.
- `cache.dfy` (`Cache`): `run_batch_prediction_and_cache`.
  - For each product: build the row dictionary, predict, demote every current latest row of that product, and append the new row.
  - There is one commit at the end, so an exception leaves the stored table untouched.
- `parse_value.dfy` (`QueryValues`): `_parse_value`, which tries int, then float, then `true`/`false` in any case, and otherwise keeps the string.
- `filters.dfy` (`Filters`): the filter loop of `get_filtered_products`.
  - An exact column name wins, product table first; then `_gt`; then `_lt`.
  - Also modelled: the join with latest predictions, the SQL comparison, and `LIMIT`/`OFFSET`.
- `routes.dfy` (`Routes`): the blueprint handlers as functions from request to status and payload:
  - `predict_api`, `predict_csv`, `get_product_by_sku`, `get_filtered_products`, `run_cache_from_api`.
- `app.dfy` (`FeatureApp`): the standalone `/predict` service.
  - It reads six fixed, ordered field lists from one JSON object.
  - The first missing field, in evaluation order, is reported as a 400.
  - Its conversions differ from `predict.py`: `int()` truncation instead of `round`, and demand rounded to 2 places instead of 3. Both files are modelled as written.

Modelling choices:

- **Models.** Trained models, encoders, the database session, the clock and the row-id sequence are parameters. A model is a function from its input cells to a result or an error message.
- **Floats.** Python floats are exact reals. `round` is taken on the exact value, ties to even.
- **Query parameters.** `args.items()` on the query's multi-valued dictionary yields each key once, in order of first appearance, with its first value; `?id=1&id=2` filters on `id == 1` only.
- **Query comparisons.** They follow SQLite's rules:
  - NULL matches nothing;
  - numbers compare with numbers, with booleans stored as 0/1;
  - text compares with text, character by character;
  - across storage classes every number sorts below every text, so `<` holds, `>` and `=` fail;
  - a `String` column (TEXT affinity) turns a bound integer into its decimal text, so `?sku=1000` finds the SKU "1000";
  - `created_at` is stored as ISO text; a number or a string compared with it is bound as its own type, so `?created_at_gt=2024` keeps every row (text sorts above numbers) and `?created_at_gt=2024-06-01` compares text with text;
  - a boolean parameter is never bound: SQLAlchemy writes `= true` as the constant 1, so `?created_at=true` runs and matches nothing, and it refuses `>` or `<` against a boolean while the filter is built, so `?<column>_gt=true` raises;
  - the SQLite driver binds integers only within 64 bits, so a wider integer parameter, `limit` and `offset` included, makes the query raise;
  - these failures come in the handler's order: building the filters, then reading `limit` and `offset`, then binding;
  - a negative `LIMIT` means no bound, and a negative `OFFSET` counts as 0.
- **Join order.** The join is product-major, in table order.

Two behaviours to note:

- **SKU lookup.** `get_product_by_sku` dereferences a missing latest prediction and fails with a 500. It does not report a null block (see Findings).
- **Batch.** The batch is all-or-nothing, with no success/failure tally. The best-effort variant does not exist in the code.

## Model

| member | source | states |
|---|---|---|
| Values.RoundHalfEven | predict.py:38 | `round(x)` is within one half of `x`, and a tie goes to the even integer |
| Values.TruncateToInt | app.py:113 | `int(x)` on a float truncates toward zero: at most `x` for non-negative `x`, at least `x` for negative `x`, and within 1 of it |
| Values.RoundDigits | predict.py:41 | `round(x, n)` is a whole number of units of 10^-n, within half a unit of `x`; on a tie that number of units is even |
| Schema.FeaturesBlock | routes.py:98-104 | the `features` block has exactly the 26 feature columns as keys, never `id` or `sku`, and for a loaded product it is the product's feature values |
| Schema.PredictionBlock | routes.py:105-109 | the `prediction` block has exactly the seven shown columns; `id`, `product_id`, `is_latest` and `created_at` are absent; each value is that column of the row |
| Schema.FeatureColumnsCapitalised | models.py:14-39 | every declared feature column name starts with a capital letter |
| Estimators.InverseTransform | predict.py:33-35 | decoding succeeds exactly for a known class index and yields that class's label; an unknown index raises the "previously unseen labels" error naming it |
| Predict.ResultMapShape | predict.py:57-65 | the predictor's dictionary has exactly the seven documented keys, and its values follow the key order the CSV output uses |
| Predict.SelectColumns | predict.py:34 | `row[names]` succeeds exactly when every name is a column, and yields the cells in the order asked; otherwise it reports exactly the missing names together with the request, and the two have the same length exactly when no requested name is a column |
| Predict.MissingAll | predict.py:34 | every requested name is missing exactly when none of them is a column |
| Predict.Apply | predict.py:33-55 | an estimator call fails with a KeyError exactly when one of its trained columns is missing, naming exactly those; otherwise it is the model's output on the row's cells in trained order, a model exception becoming the error |
| Predict.PredictSingle | predict.py:23-65 | a frame that is not one row is rejected with its row count; a one-row frame succeeds exactly when no model call and no label decoding raises; on success each label is the encoder class at the classifier's index; days are the regressor output rounded half to even, within one half of it; demand is the output rounded to three places, a multiple of 0.001 within 0.0005 of it, and the percentage the output rounded to two places, a multiple of 0.01 within 0.005 of it; the trigger holds exactly when the stored percentage is positive; the dead-stock flag is the classifier output being nonzero |
| Predict.PredictSingleFirstError | predict.py:33-55 | a failing one-row prediction raises the exception of the first step that fails, in the order the function runs its models and decoders |
| Predict.RoundDigitsNear | predict.py:41-48 | rounding to three places moves a value by at most 0.0005, to two places by at most 0.005 |
| Predict.TriggerThreshold | predict.py:47-50 | rounding to two places before testing `> 0` means the trigger fires exactly for raw outputs above 0.005 |
| Predict.TriggerFromRawOutput | predict.py:47-50 | a successful prediction's markdown trigger holds exactly when the raw markdown output exceeds 0.005 |
| Predict.ExpiryNotClamped | predict.py:38 | days to expiry are not clamped: a raw output of -1 or less gives a negative day count |
| Cache.RowDict | cache_predictions.py:12-15 | an attribute reaches the predictor exactly when it is not private and not `id`, `sku` or `predictions`, with its value unchanged |
| Cache.RowDictOfProduct | cache_predictions.py:12-16 | for a loaded product the predictor sees exactly its feature columns and values |
| Cache.NewRow | cache_predictions.py:28-37 | the inserted row belongs to the product, is marked latest, and leaves the markdown percentage NULL |
| Cache.NewRowStoresResult | cache_predictions.py:28-37 | the inserted row stores the dictionary's `spoilage_risk`, `days_to_expiry`, `forecasted_demand`, `dead_stock`, `trigger_markdown` and `sustainability_label` entries under the matching columns |
| Cache.CachedBlockMatchesResult | cache_predictions.py:28-37 | the response block of a freshly cached row agrees with the predictor's dictionary on all six stored fields, and its markdown percentage is NULL |
| Cache.Supersede | cache_predictions.py:21-39 | demote-then-insert appends one row that becomes the only latest row of its product, even if several were latest before; other products keep their latest rows; old rows change at most in their latest flag |
| Cache.Step | cache_predictions.py:10-39 | one product's iteration either fails because its prediction failed, or appends the row built from that product's prediction as its one and only latest row, without touching other products' latest rows |
| Cache.ProcessAll | cache_predictions.py:10-39 | the loop fails exactly when some product's prediction fails; otherwise row `k` past the old table is, up to its latest flag, the row built from product `k`'s prediction; old rows change at most in their flag; products outside the batch keep their latest rows |
| Cache.ExactlyOneLatest | cache_predictions.py:22-39 | after a successful pass over products with distinct ids, each product has exactly one latest row: the one appended for it |
| Cache.RunBatch | cache_predictions.py:6-42 | an exception leaves the stored table unchanged, and it happens exactly when some prediction fails; a committed run grows the table by one row per product, and when product ids are distinct (a primary key) row `k` past the old table is exactly the row built from product `k`'s prediction and is that product's only latest row |
| QueryValues.ParseValue | routes.py:14-25 | a value is an int exactly when `int()` accepts it, a float when only `float()` does, a boolean for `true`/`false` in any case otherwise, and else the original string; never NULL |
| QueryValues.IntLiteralIsFloatLiteral | routes.py:15-19 | every string `int()` accepts, `float()` also accepts |
| QueryValues.DigitsValueOfShowNat | routes.py:16 | reading back the decimal digits of a natural number gives the number |
| QueryValues.ParseShowInt | routes.py:14-16 | a query value written as `str(n)` parses back to the integer `n` |
| QueryValues.ParseOne | routes.py:15-16 | "1" parses as the integer 1, not as a boolean |
| QueryValues.ParseHalf | routes.py:18-19 | "0.5" is not an int literal and parses as the float one half |
| QueryValues.ParseTrueAnyCase | routes.py:21-22 | "TRUE" parses as the boolean true |
| QueryValues.ParseTrue | routes.py:21-22 | "true" parses as the boolean true |
| Filters.OnColumn | routes.py:131-141 | a suffixed key's base gives a filter exactly when it is a column of either table, preferring the product table |
| Filters.Classify | routes.py:125-141 | a parameter adds a filter exactly when it is a column, or a column with `_gt`/`_lt` appended; the filter's column belongs to its table, a prediction filter is never shadowed by a product column of the same name, and the key is the column name plus the operator's suffix |
| Filters.Get | routes.py:143-144 | `args.get` yields the value of the first parameter with the key, or nothing when no parameter has it |
| Filters.Items | routes.py:125 | `args.items()` lists each key once, with the value `args.get` gives it, and lists every key the request has |
| Filters.ClassifyAll | routes.py:125-141 | the filters of a parameter list are exactly those its parameters classify into |
| Filters.BuildFilters | routes.py:125-141 | the request's filters are exactly those its keys classify into, each key taken with its first value |
| Filters.RepeatedKeyFirstValue | routes.py:125-127 | `?id=1&id=2` adds the single filter `id == 1` |
| Filters.SuffixedKeyIsNoColumn | routes.py:126-136 | no column name ends in `_gt` or `_lt`, so a suffixed key is never taken as an equality |
| Filters.ClassifySpelledKey | routes.py:125-141 | spelling a filter as a key and classifying that key gives the filter back |
| Filters.SharedNameFiltersProducts | routes.py:126-129 | `id`, a column of both tables, filters the product table |
| Filters.PaginationKeysIgnored | routes.py:125-144 | `limit` and `offset` add no filter |
| Filters.StorageRank | routes.py:127-141 | SQLite ranks NULL below numbers (booleans included) and numbers below text |
| Filters.Bound | models.py:11-60 | against a `String` column an integer or boolean parameter is compared as its decimal text; against any other column a parameter is compared as parsed |
| Filters.TextOrder | routes.py:127-141 | text comparison is a strict total order: exactly one of before, equal, after |
| Filters.CompareTrichotomy | routes.py:127-141 | two non-NULL values compare exactly one way, below, equal or above, and `a > b` is `b < a` |
| Filters.NumericSkuMatchesText | routes.py:126-127 | `?sku=<n>` parses `n` as an integer, and the filter still finds the product whose SKU is that integer's text |
| Filters.NumberBelowText | routes.py:136-141 | a text bound on a numeric column, such as `?Spoilage_Risk_Score_lt=abc`, keeps every row with a numeric score, and `_gt` with text keeps none |
| Filters.LatestOf | routes.py:118 | one product's joined rows are exactly its predictions marked latest |
| Filters.JoinLatest | routes.py:118 | the join holds exactly the (product, prediction) pairs that share the product id and are marked latest |
| Filters.KeepMatching | routes.py:125-147 | a joined row survives exactly when every filter accepts it |
| Filters.KeepMatchingAppend | routes.py:125-147 | filtering a concatenation is concatenating the filtered parts, so the surviving rows keep their order |
| Filters.Page | routes.py:143-145 | the page skips `offset` rows (none when negative), holds at most `limit` rows (all when negative), and keeps order |
| Filters.IntArg | routes.py:143-144 | a missing key takes the default; a present one succeeds exactly when it is an integer literal, and agrees with `_parse_value` |
| Filters.FilteredRows | routes.py:115-147 | every returned pair is a product with its latest prediction that passes every filter; at most 100 rows without `limit`; the query succeeds exactly when no filter compares a boolean by `>` or `<`, `limit` and `offset` are integers, and every bound integer fits in 64 bits |
| Filters.FilteredRowsError | routes.py:125-147 | which error a failing query reports: a boolean `>`/`<` first, then a bad `limit`, then a bad `offset`, then a 64-bit overflow |
| Filters.FilteredRowsWindow | routes.py:115-147 | the result is the `[offset, offset + limit)` window of the matching pairs in join order, of exactly that length; when the offset skips none and the limit cuts none, every latest pair passing every filter is returned |
| Filters.CreatedAtAfterNumber | routes.py:128-147 | `?created_at_gt=2024` binds an integer, and since every stored timestamp is text, which sorts above numbers, it returns the first 100 latest pairs in join order |
| Filters.KeepMatchingAll | routes.py:125-147 | filters that every row passes keep every row, in order |
| Filters.SingleParameter | routes.py:125-141 | a query of one parameter builds exactly the filter its key classifies into, or none |
| Filters.BoolThresholdFails | routes.py:130-141 | `?<column>_gt=<boolean>` or `_lt` on any column is refused while the filter is built |
| Filters.ScoreAboveTrueFails | routes.py:130-135 | `?Spoilage_Risk_Score_gt=true` is refused |
| Filters.CreatedAtTrueMatchesNothing | routes.py:126-147 | `?created_at=true` binds nothing, runs, and returns no rows |
| Filters.WideIdFails | routes.py:126-147 | `?id=<n>` for an integer outside 64 bits fails with the driver's overflow error |
| Filters.WideLimitFails | routes.py:143-147 | `?limit=<n>` for an integer outside 64 bits fails with the driver's overflow error |
| Filters.ThresholdQuery | routes.py:115-147 | `?Spoilage_Risk_Score_gt=0.5&limit=10` returns at most ten latest pairs, each with a spoilage score above one half |
| Routes.PredictApi | routes.py:30-42 | a `null` or empty-object body is a 400; a body `get_json` cannot read, including a request without a JSON content type, is a 500 with the reader's message; otherwise the prediction is a 200 carrying its dictionary or a 500 carrying the text of its exception; the single-row check never fires |
| Routes.OneMissingText | routes.py:41-42 | a row lacking one of two requested columns reports `"['a'] not in index"` |
| Routes.NoneFoundText | routes.py:41-42 | a row lacking every requested column reports `"None of [Index(['a', 'b'], dtype='object')] are in the [columns]"` |
| Routes.RowOf | routes.py:61-62 | a CSV row becomes a row with exactly the header's columns, each taking the cell at its position, NULL past the end of a short row |
| Routes.Cells | routes.py:55-66 | a row as the frame holds it is exactly as wide as the header: the row's own cells, then NULLs |
| Routes.CellsAgreeWithRowOf | routes.py:61-66 | the dictionary the predictor reads and the row the output writes hold the same cell for every column |
| Routes.PredictRows | routes.py:60-66 | every CSV row is predicted; each output line is the input row padded to the header, then that row's seven prediction values; the loop fails exactly when some row's prediction fails |
| Routes.PredictRowsFirstError | routes.py:60-64 | a failing loop reports the exception of the first row whose prediction fails |
| Routes.PredictCsv | routes.py:47-77 | a missing file or an empty table is a 400; a non-empty table is a 200 exactly when every row predicts, and then the output has the input columns followed by the prediction keys, the same row count, and each line is its input row padded to the header followed by that row's prediction values; it is a 500 exactly when the file cannot be read or some row fails, carrying the reader's message or the text of the first failing row's exception |
| Routes.CsvRowMatchesApi | routes.py:30-77 | a line of a successful CSV prediction keeps its input cells, NULL-padded, and carries exactly the values the JSON endpoint answers for the same row |
| Routes.LineMatchesApi | routes.py:30-66 | an output line under a non-empty header holds the row's cells, then NULLs, then the values the JSON endpoint answers for that row |
| Routes.FindSku | routes.py:85 | the product found has the SKU, and nothing is found exactly when no product has it |
| Routes.FindLatest | routes.py:91-94 | the row found is a latest row of the product, and nothing is found exactly when it has none |
| Routes.ProductBySku | routes.py:82-110 | an unknown SKU is a 404; a known SKU without a latest prediction is a 500; otherwise a 200 carrying that product's entry with one of its latest predictions |
| Routes.ProductBySkuNullSafe | routes.py:82-110 | the corrected lookup never fails for a known SKU; the block is null exactly when no latest row exists; it agrees with the as-written lookup wherever that one succeeds |
| Routes.FilteredProducts | routes.py:147-165 | the response lists the filtered rows one-to-one, in order, each with its product's features and a present prediction block; a query that raises is a 500 |
| Routes.RunCacheApi | routes.py:170-176 | success is reported exactly when every product's prediction succeeds, and then the table grows by one row per product; an error leaves the stored table unchanged and is reported as a 500 |
| FeatureApp.Gather | app.py:31-43 | reading a field list succeeds with one value per field, and any failure names a listed field that is absent |
| FeatureApp.GatherReads | app.py:31-109 | a read succeeds exactly when every listed field is present, yields their values in listed order, and otherwise names the first absent field |
| FeatureApp.GatherAppend | app.py:31-109 | reading two lists one after the other is reading their concatenation: the same values, or the same first missing field |
| FeatureApp.Assemble | app.py:31-109 | the vectors have 11, 11, 12, 10, 10 and 8 entries, and the spoilage and expiry vectors are identical |
| FeatureApp.AssembleReadsInOrder | app.py:31-109 | building the six vectors fails exactly when reading all six lists in order fails, with the same first missing field; each vector is its list's values in order |
| FeatureApp.ResponseShape | app.py:119-126 | the JSON answer has exactly six keys, the documented ones |
| FeatureApp.Predictions | app.py:112-117 | the six predictions succeed exactly when no model and no encoder raises; each label is the encoder's class at the classifier's index; expiry is the regressor output truncated by `int()`; demand is its output rounded to two places; the dead-stock and markdown flags are their outputs being nonzero |
| FeatureApp.LabelStep | app.py:112-117 | decoding a classifier's output raises exactly for an index outside the encoder's classes, with the "previously unseen labels" text |
| FeatureApp.PredictionsFirstError | app.py:112-129 | a failing prediction answers with the text of the first model or encoder that raises, in the handler's order |
| FeatureApp.PredictEndpoint | app.py:24-129 | the answer is 200 or 400; a missing field is a 400 naming the first missing field in evaluation order; with every field present, predictions that succeed are a 200 carrying the six-key object, and a model or encoder exception is a 400 with its text |
| FeatureApp.MissingFieldAnswer | app.py:26-129 | when the `i`-th field read is the first one absent, the answer is 400 with that field's name in quotes |
| FeatureApp.CompleteBodyAnswer | app.py:26-129 | with every field present, the six models run on the fields' values in each list's order, and the answer is 200 with their predictions or 400 with the exception text |

## Left out

- Loading the pickled models, `db.py`, sessions, `tempfile` and `send_file` are not modelled. Models and the stored tables are parameters, and the CSV download is the table it would contain. `db.py` is not part of this model.
- `home()` (routes.py:182-184) is a constant health-check string. The seeding script `seed_products.py` is not part of this model.
- The trained models themselves are not modelled. Only their interface is: selected cells in, a raw output or an exception out.
- Values.RoundDigits: computed on exact reals. It does not model binary floating point: neither the float nearest to the decimal result, nor the cases where `round` on a binary float differs from rounding the exact decimal.
- QueryValues.ParseValue: the literal grammar leaves out what `int()`/`float()` also accept: surrounding whitespace, `_` separators, exponents, `nan`/`inf`, and non-ASCII digits. Letter case is folded for ASCII only.
- Filters.Compare: the storage engine is configured in `db.py`, so SQLite is assumed. Three of its rules are simplified. A float parameter compared with a `String` column keeps its number storage class and never equals a text; SQLite would first render it as text. A text parameter compared with a numeric column stays text; SQLite would first try to read it as a number, but `_parse_value` has already turned every literal the model's grammar knows into a number. The result order of the join is fixed as product-major.
- Cache.RunBatch: the print at cache_predictions.py:43 is left out. `created_at` is the `now` parameter, and row ids come from `nextId`. A rounded day count outside 64 bits, which the SQLite driver would refuse at the commit, is stored as is.
- Routes.PredictApi: only JSON objects are modelled as bodies. A request without a JSON content type is modelled as an unreadable body: with the Flask 2 or later that `send_file(..., download_name=...)` requires, `get_json` raises for it inside the `try`, so it answers 500 rather than reaching the "No JSON received" 400. Other truthy JSON values, such as a non-empty list or a number, are not. The KeyError texts follow pandas for short requests of plain names: a long `Index` is wrapped over several lines by pandas and is not, newer pandas prints `dtype='str'`, names holding quotes or backslashes are escaped differently, and repeated requested names are not reduced to unique ones.
- Routes.ErrorText: a model's own exception text is a parameter of the model, and only the encoder's "previously unseen labels" text is spelled out.
- Routes.PredictCsv: `read_csv` parsing is not modelled. The upload arrives as a header plus rows of cells, and a parse failure is an error message. A short row's missing cells are NULL. A row longer than the header, which `read_csv` rejects or turns into an index, is cut to the header's width. `read_csv` renames repeated header names; the model instead lets the first occurrence of a repeated name supply the predictor's cell.
- Routes.ProductBySku: the framework's rendering of an uncaught exception is reduced to status 500 with the exception text.
- FeatureApp.PredictEndpoint: only numeric JSON fields are modelled (`map<string, real>`). A body that is not JSON is not modelled. `request.json` at app.py:26 is read inside the handler but before its `try`, so such a body makes the handler itself raise, and Flask answers with its own 400 or 415 error. A `null` body is modelled.

## Findings

| source | as written | input that shows it | evidently intended | confidence | as-written member | corrected member |
|---|---|---|---|---|---|---|
| routes.py:105-109 | the prediction block reads `prediction.__table__` without checking that a latest prediction was found | a product with SKU `SKU-1000` and no prediction rows; `GET /api/v1/product/SKU-1000` raises AttributeError and answers 500 | answer 200 with the product's features and a null prediction block | high (not executed) | Routes.ProductBySku, Routes.UncachedProductFails | Routes.ProductBySkuNullSafe |
