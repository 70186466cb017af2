/** The HTTP handlers of the API blueprint, as functions from a request to a status
    code and a payload (routes.py). */
module Routes {
  import opened Results
  import opened Values
  import opened Schema
  import opened Predict
  import opened Filters
  import opened Cache

  /** What a handler sends back. */
  datatype Payload =
    | ErrorBody(message: string)              // {"error": message}
    | PredictionBody(result: PredictionResult)
    | CsvBody(table: Csv)                     // the CSV download
    | EntryBody(entry: Entry)
    | EntriesBody(entries: seq<Entry>)
    | StatusBody(status: string, message: string)
    | ServerFault(message: string)            // an uncaught exception, rendered by the framework

  datatype Response = Response(status: int, payload: Payload)

  /** The request body of the JSON predict endpoint. */
  datatype JsonBody =
    | NoJson                                  // `null`, or an empty object
    | Unparsable(message: string)             // `get_json` raised: not JSON, or no JSON content type
    | JsonObject(fields: map<string, Value>)

  /** The message `str(e)` gives for a predictor exception. For pandas' KeyError it is
      the message's repr, so double quotes surround it: "None of [...] are in the
      [columns]" when no requested column exists, else the missing names. */
  function ErrorText(e: PredictError): string {
    match e
    case NotSingleRow(_) => "Input must be a single-row DataFrame."
    case MissingColumns(names, requested) =>
      if |names| == |requested| then
        "\"None of [Index([" + JoinNames(requested) + "], dtype='object')] are in the [columns]\""
      else "\"[" + JoinNames(names) + "] not in index\""
    case ModelFailure(message) => message
  }

  /** A frame lacking one of two requested columns reports that column. */
  lemma OneMissingText()
    ensures ErrorText(MissingColumns(["a"], ["a", "b"])) == "\"['a'] not in index\""
  {
  }

  /** A frame lacking every requested column reports the whole request. */
  lemma NoneFoundText()
    ensures ErrorText(MissingColumns(["a", "b"], ["a", "b"]))
            == "\"None of [Index([" + "'a', 'b'" + "], dtype='object')] are in the [columns]\""
  {
    var names := ["a", "b"];
    assert names[1..] == ["b"];
    assert JoinNames(names) == "'a', 'b'";
  }

  function JoinNames(names: seq<string>): string {
    if |names| == 0 then ""
    else if |names| == 1 then "'" + names[0] + "'"
    else "'" + names[0] + "', " + JoinNames(names[1..])
  }

  /** POST /api/v1/predict: 400 for a `null` or empty body, otherwise the predictor's
      dictionary, or 500 with the text of whatever `get_json` or the predictor raised. */
  function PredictApi(body: JsonBody, m: Models): (r: Response)
    ensures r.status == 400 <==> body.NoJson? || (body.JsonObject? && |body.fields| == 0)
    ensures r.status == 200 <==> body.JsonObject? && |body.fields| > 0 && PredictSingle(m, [body.fields]).Ok?
    ensures r.status == 200 ==> r.payload == PredictionBody(PredictSingle(m, [body.fields]).value)
    ensures r.status == 500 ==> r.payload.ErrorBody?
    ensures r.status == 500 && body.Unparsable? ==> r.payload == ErrorBody(body.message)
    ensures r.status == 500 && body.JsonObject? ==> r.payload == ErrorBody(ErrorText(PredictSingle(m, [body.fields]).error))
    ensures r.status in {200, 400, 500}
    ensures body.JsonObject? && PredictSingle(m, [body.fields]).Err? ==>
              !PredictSingle(m, [body.fields]).error.NotSingleRow?
  {
    match body
    case NoJson => Response(400, ErrorBody("No JSON received"))
    case Unparsable(message) => Response(500, ErrorBody(message))
    case JsonObject(fields) =>
      if |fields| == 0 then Response(400, ErrorBody("No JSON received"))
      else
        match PredictSingle(m, [fields])
        case Ok(result) => Response(200, PredictionBody(result))
        case Err(e) => Response(500, ErrorBody(ErrorText(e)))
  }

  /** A parsed CSV upload: its header and its rows of cells. */
  datatype Csv = Csv(columns: seq<string>, rows: seq<seq<Value>>)

  /** The `file` field of the CSV predict request. */
  datatype Upload = NoFile | Unreadable(message: string) | Parsed(table: Csv)

  /** Position `i` holds the first occurrence of its column name. */
  predicate FirstAt(columns: seq<string>, i: int)
    requires 0 <= i < |columns|
  {
    forall j :: 0 <= j < i ==> columns[j] != columns[i]
  }

  lemma FirstAtTail(columns: seq<string>, i: int)
    requires 1 <= i < |columns| && FirstAt(columns, i)
    ensures columns[1..][i - 1] == columns[i] && FirstAt(columns[1..], i - 1)
  {
    forall j | 0 <= j < i - 1
      ensures columns[1..][j] != columns[1..][i - 1]
    {
      assert columns[1..][j] == columns[j + 1];
    }
  }

  /** One CSV row as the one-row frame's only row: each column takes the cell in its
      position (the first position, should a name repeat), and a short row leaves the
      missing cells empty (NaN, here `VNull`). */
  function RowOf(columns: seq<string>, cells: seq<Value>): (r: Row)
    ensures r.Keys == set c | c in columns
    ensures forall i :: 0 <= i < |columns| && FirstAt(columns, i) ==>
              r[columns[i]] == if i < |cells| then cells[i] else VNull
    decreases |columns|
  {
    if |columns| == 0 then map[]
    else
      var tail := if |cells| > 0 then cells[1..] else [];
      var rest := RowOf(columns[1..], tail);
      assert forall c :: c in columns <==> c == columns[0] || c in columns[1..];
      var r := rest[columns[0] := if |cells| > 0 then cells[0] else VNull];
      assert forall i :: 1 <= i < |columns| && FirstAt(columns, i) ==>
               r[columns[i]] == if i < |cells| then cells[i] else VNull by {
        forall i | 1 <= i < |columns| && FirstAt(columns, i)
          ensures r[columns[i]] == if i < |cells| then cells[i] else VNull
        {
          FirstAtTail(columns, i);
          if i < |cells| {
            assert tail[i - 1] == cells[i];
          }
        }
      }
      r
  }

  /** A row as the frame holds it: one cell per header column, a short row padded with
      NaN (`VNull`) and the surplus of a long row dropped. */
  function Cells(columns: seq<string>, cells: seq<Value>): (r: seq<Value>)
    ensures |r| == |columns|
    ensures forall j :: 0 <= j < |columns| && j < |cells| ==> r[j] == cells[j]
    ensures forall j :: |cells| <= j < |columns| ==> r[j] == VNull
  {
    seq(|columns|, j requires 0 <= j < |columns| => if j < |cells| then cells[j] else VNull)
  }

  /** The row the frame writes back and the dictionary the predictor reads agree on
      every column (taking a repeated name at its first position). */
  lemma CellsAgreeWithRowOf(columns: seq<string>, cells: seq<Value>)
    ensures forall i :: 0 <= i < |columns| && FirstAt(columns, i) ==>
              RowOf(columns, cells)[columns[i]] == Cells(columns, cells)[i]
  {
  }

  /** `out` is the output line of input row `row`: the row as wide as the header,
      then the values of that row's prediction under the prediction columns. */
  predicate PredictedLine(columns: seq<string>, row: seq<Value>, out: seq<Value>, m: Models) {
    && PredictSingle(m, [RowOf(columns, row)]).Ok?
    && |out| == |columns| + |ResultKeys|
    && out[..|columns|] == Cells(columns, row)
    && out[|columns|..] == ResultValues(PredictSingle(m, [RowOf(columns, row)]).value)
  }

  /** Row `i` is the first row whose prediction raises. */
  predicate FirstFailingRow(columns: seq<string>, rows: seq<seq<Value>>, m: Models, i: int) {
    && 0 <= i < |rows|
    && PredictSingle(m, [RowOf(columns, rows[i])]).Err?
    && forall j :: 0 <= j < i ==> PredictSingle(m, [RowOf(columns, rows[j])]).Ok?
  }

  /** Every row predicted in order, each into its output line. The first exception
      stops the loop. */
  function PredictRows(columns: seq<string>, rows: seq<seq<Value>>, m: Models)
    : (r: Result<seq<seq<Value>>, PredictError>)
    ensures r.Ok? ==> |r.value| == |rows|
    ensures r.Ok? ==> forall i :: 0 <= i < |rows| ==> PredictedLine(columns, rows[i], r.value[i], m)
    ensures r.Err? <==> exists i :: 0 <= i < |rows| && PredictSingle(m, [RowOf(columns, rows[i])]).Err?
  {
    if |rows| == 0 then Ok([])
    else
      var first :- PredictSingle(m, [RowOf(columns, rows[0])]);
      var rest :- PredictRows(columns, rows[1..], m);
      var line := Cells(columns, rows[0]) + ResultValues(first);
      assert line[..|columns|] == Cells(columns, rows[0]) && line[|columns|..] == ResultValues(first);
      assert forall i :: 1 <= i < |rows| ==> rows[1..][i - 1] == rows[i];
      Ok([line] + rest)
  }

  /** The exception the loop reports is the first failing row's. */
  lemma {:induction false} PredictRowsFirstError(columns: seq<string>, rows: seq<seq<Value>>, m: Models)
    requires PredictRows(columns, rows, m).Err?
    ensures exists i :: FirstFailingRow(columns, rows, m, i)
                        && PredictRows(columns, rows, m).error == PredictSingle(m, [RowOf(columns, rows[i])]).error
  {
    var first := PredictSingle(m, [RowOf(columns, rows[0])]);
    if first.Err? {
      assert FirstFailingRow(columns, rows, m, 0);
    } else {
      PredictRowsFirstError(columns, rows[1..], m);
      var i :| FirstFailingRow(columns, rows[1..], m, i)
               && PredictRows(columns, rows[1..], m).error == PredictSingle(m, [RowOf(columns, rows[1..][i])]).error;
      assert rows[1..][i] == rows[i + 1];
      forall j | 0 <= j < i + 1
        ensures PredictSingle(m, [RowOf(columns, rows[j])]).Ok?
      {
        if j > 0 {
          assert rows[j] == rows[1..][j - 1];
        }
      }
      assert FirstFailingRow(columns, rows, m, i + 1);
    }
  }

  /** POST /api/v1/predict_csv: 400 for a missing file or an empty table, otherwise
      the input table with the seven prediction columns appended when every row
      predicts, or 500 with the text of the first row's exception (or the reader's). */
  function PredictCsv(upload: Upload, m: Models): (r: Response)
    ensures r.status == 400 <==> upload.NoFile? || (upload.Parsed? && (|upload.table.rows| == 0 || |upload.table.columns| == 0))
    ensures r.status == 200 <==>
              && upload.Parsed? && |upload.table.rows| > 0 && |upload.table.columns| > 0
              && forall i :: 0 <= i < |upload.table.rows| ==>
                   PredictSingle(m, [RowOf(upload.table.columns, upload.table.rows[i])]).Ok?
    ensures r.status == 200 ==> r.payload.CsvBody?
    ensures r.status == 200 ==>
              var input := upload.table;
              var output := r.payload.table;
              && output.columns == input.columns + ResultKeys
              && |output.rows| == |input.rows|
              && forall i :: 0 <= i < |input.rows| ==> PredictedLine(input.columns, input.rows[i], output.rows[i], m)
    ensures r.status == 500 <==>
              || upload.Unreadable?
              || (&& upload.Parsed? && |upload.table.rows| > 0 && |upload.table.columns| > 0
                  && exists i :: 0 <= i < |upload.table.rows| &&
                       PredictSingle(m, [RowOf(upload.table.columns, upload.table.rows[i])]).Err?)
    ensures r.status == 500 && upload.Unreadable? ==> r.payload == ErrorBody(upload.message)
    ensures r.status == 500 && upload.Parsed? ==>
              exists i :: FirstFailingRow(upload.table.columns, upload.table.rows, m, i)
                          && r.payload == ErrorBody(ErrorText(
                               PredictSingle(m, [RowOf(upload.table.columns, upload.table.rows[i])]).error))
    ensures r.status in {200, 400, 500}
  {
    match upload
    case NoFile => Response(400, ErrorBody("CSV file is required under 'file' field"))
    case Unreadable(message) => Response(500, ErrorBody(message))
    case Parsed(table) =>
      if |table.rows| == 0 || |table.columns| == 0 then Response(400, ErrorBody("CSV is empty"))
      else
        match PredictRows(table.columns, table.rows, m)
        case Ok(rows) => Response(200, CsvBody(Csv(table.columns + ResultKeys, rows)))
        case Err(e) =>
          PredictRowsFirstError(table.columns, table.rows, m);
          Response(500, ErrorBody(ErrorText(e)))
  }

  /** Each line of a successful CSV prediction keeps the input cells under the input
      header, padded to its width, and carries under the prediction columns exactly
      what the JSON endpoint answers for the same row sent as an object. */
  lemma CsvRowMatchesApi(upload: Upload, m: Models, i: int)
    requires PredictCsv(upload, m).status == 200
    requires 0 <= i < |upload.table.rows|
    ensures var table := upload.table;
            var line := PredictCsv(upload, m).payload.table.rows[i];
            var api := PredictApi(JsonObject(RowOf(table.columns, table.rows[i])), m);
            && |line| == |table.columns| + |ResultKeys|
            && (forall j :: 0 <= j < |table.columns| && j < |table.rows[i]| ==> line[j] == table.rows[i][j])
            && (forall j :: |table.rows[i]| <= j < |table.columns| ==> line[j] == VNull)
            && api.status == 200
            && line[|table.columns|..] == ResultValues(api.payload.result)
  {
    var table := upload.table;
    assert PredictedLine(table.columns, table.rows[i], PredictCsv(upload, m).payload.table.rows[i], m);
    LineMatchesApi(table.columns, table.rows[i], PredictCsv(upload, m).payload.table.rows[i], m);
  }

  /** An output line under a non-empty header, read against the header and against
      the JSON endpoint. */
  lemma LineMatchesApi(columns: seq<string>, row: seq<Value>, line: seq<Value>, m: Models)
    requires |columns| > 0 && PredictedLine(columns, row, line, m)
    ensures var api := PredictApi(JsonObject(RowOf(columns, row)), m);
            && |line| == |columns| + |ResultKeys|
            && (forall j :: 0 <= j < |columns| && j < |row| ==> line[j] == row[j])
            && (forall j :: |row| <= j < |columns| ==> line[j] == VNull)
            && api.status == 200
            && line[|columns|..] == ResultValues(api.payload.result)
  {
    assert forall j :: 0 <= j < |columns| ==> line[j] == line[..|columns|][j];
    assert columns[0] in RowOf(columns, row);
  }

  /** The first product with this SKU, as `.first()` returns it. */
  function FindSku(products: seq<ProductRow>, sku: string): (r: Option<ProductRow>)
    ensures r.Some? ==> r.value in products && r.value.sku == sku
    ensures r.None? <==> forall p :: p in products ==> p.sku != sku
  {
    if |products| == 0 then None
    else if products[0].sku == sku then Some(products[0])
    else
      assert forall p :: p in products <==> p == products[0] || p in products[1..];
      FindSku(products[1..], sku)
  }

  /** The first row marked latest for a product. */
  function FindLatest(preds: seq<PredictionRow>, pid: int): (r: Option<PredictionRow>)
    ensures r.Some? ==> r.value in preds && r.value.productId == pid && r.value.isLatest
    ensures r.None? <==> forall q :: q in preds ==> !(q.productId == pid && q.isLatest)
  {
    if |preds| == 0 then None
    else if preds[0].productId == pid && preds[0].isLatest then Some(preds[0])
    else
      assert forall q :: q in preds <==> q == preds[0] || q in preds[1..];
      FindLatest(preds[1..], pid)
  }

  /** GET /api/v1/product/<sku>, as written: 404 for an unknown SKU; a product without
      a latest prediction makes the handler raise, which the framework turns into 500. */
  function ProductBySku(products: seq<ProductRow>, preds: seq<PredictionRow>, sku: string): (r: Response)
    ensures r.status == 404 <==> forall p :: p in products ==> p.sku != sku
    ensures r.status == 404 ==> r.payload == ErrorBody("Product not found")
    ensures r.status == 500 <==> FindSku(products, sku).Some? && FindLatest(preds, FindSku(products, sku).value.id).None?
    ensures r.status == 200 ==>
              exists p, q :: p in products && q in preds && p.sku == sku && q.productId == p.id && q.isLatest
                             && r.payload == EntryBody(EntryOf(p, q))
    ensures r.status in {200, 404, 500}
  {
    match FindSku(products, sku)
    case None => Response(404, ErrorBody("Product not found"))
    case Some(p) =>
      match FindLatest(preds, p.id)
      case None => Response(500, ServerFault("'NoneType' object has no attribute '__table__'"))
      case Some(q) => Response(200, EntryBody(EntryOf(p, q)))
  }

  /** A product that exists but has never been cached makes the as-written lookup fail. */
  lemma UncachedProductFails()
    ensures ProductBySku([ProductRow(1, "SKU-1000", map[])], [], "SKU-1000").status == 500
  {
  }

  /** The same lookup with a null prediction block when no latest row exists. */
  function ProductBySkuNullSafe(products: seq<ProductRow>, preds: seq<PredictionRow>, sku: string): (r: Response)
    ensures r.status == 404 <==> forall p :: p in products ==> p.sku != sku
    ensures r.status != 404 ==> r.status == 200 && r.payload.EntryBody?
    ensures r.status == 200 ==>
              var e := r.payload.entry;
              && e.sku == sku
              && (e.prediction.None? <==> forall q :: q in preds ==> !(q.productId == FindSku(products, sku).value.id && q.isLatest))
    ensures ProductBySku(products, preds, sku).status != 500 ==> r == ProductBySku(products, preds, sku)
  {
    match FindSku(products, sku)
    case None => Response(404, ErrorBody("Product not found"))
    case Some(p) =>
      match FindLatest(preds, p.id)
      case None => Response(200, EntryBody(Entry(p.sku, FeaturesBlock(p), None)))
      case Some(q) => Response(200, EntryBody(EntryOf(p, q)))
  }

  /** GET /api/v1/products: the page of latest (product, prediction) pairs that pass
      every filter, or 500 when `limit`/`offset` is not an integer. */
  function FilteredProducts(products: seq<ProductRow>, preds: seq<PredictionRow>, args: seq<(string, string)>)
    : (r: Response)
    ensures r.status == 200 <==> FilteredRows(products, preds, args).Ok?
    ensures r.status == 200 ==>
              var rows := FilteredRows(products, preds, args).value;
              && r.payload.EntriesBody? && |r.payload.entries| == |rows|
              && forall i :: 0 <= i < |rows| ==>
                   && r.payload.entries[i].sku == rows[i].0.sku
                   && r.payload.entries[i].features == FeaturesBlock(rows[i].0)
                   && r.payload.entries[i].prediction == Some(PredictionBlock(rows[i].1))
    ensures r.status != 200 ==> r.status == 500
  {
    match FilteredRows(products, preds, args)
    case Ok(rows) => Response(200, EntriesBody(seq(|rows|, i requires 0 <= i < |rows| => EntryOf(rows[i].0, rows[i].1))))
    case Err(message) => Response(500, ServerFault(message))
  }

  /** POST /api/v1/run_cache: the batch run, reported as success or as a 500 carrying
      the exception text; the stored table changes only on success. */
  function RunCacheApi(products: seq<ProductRow>, stored: seq<PredictionRow>, m: Models, now: Timestamp, nextId: int)
    : (r: (Response, seq<PredictionRow>))
    ensures r.0.status == 200 <==> forall k :: 0 <= k < |products| ==> PredictProduct(m, products[k]).Ok?
    ensures r.0.status == 200 ==> r.0.payload == StatusBody("success", "Predictions cached and updated.")
    ensures r.0.status != 200 ==> r.0.status == 500 && r.0.payload.StatusBody? && r.0.payload.status == "error"
    ensures r.0.status == 500 ==> r.1 == stored
    ensures r.0.status == 200 ==> |r.1| == |stored| + |products|
  {
    var o := RunBatch(products, stored, m, now, nextId);
    match o.result
    case Ok(_) => (Response(200, StatusBody("success", "Predictions cached and updated.")), o.stored)
    case Err(e) => (Response(500, StatusBody("error", ErrorText(e))), o.stored)
  }
}
