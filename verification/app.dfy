/** The standalone prediction service (app.py): six models, each fed its own ordered
    list of fields read from one JSON object, answered as a six-key object or a 400. */
module FeatureApp {
  import opened Results
  import opened Values
  import opened Estimators

  const SpoilageFields: seq<string> := [
    "Historical_Sell_Through", "Forecasted_Demand", "Spoilage_Risk_Score", "Cold_Chain_Energy_Use",
    "Sensor_Anomalies", "Markdown_History", "Transport_Emissions", "Recyclability_Score",
    "Overstock_Risk", "Stockout_Risk", "Waste_Risk_Index"]

  const ExpiryFields: seq<string> := [
    "Historical_Sell_Through", "Forecasted_Demand", "Spoilage_Risk_Score", "Cold_Chain_Energy_Use",
    "Sensor_Anomalies", "Markdown_History", "Transport_Emissions", "Recyclability_Score",
    "Overstock_Risk", "Stockout_Risk", "Waste_Risk_Index"]

  const DemandFields: seq<string> := [
    "Historical_Sell_Through", "Days_to_Expiry", "Spoilage_Risk_Score", "Sensor_Anomalies",
    "Holiday_Demand_Amplifier", "Upcoming_Local_Events", "Promo_Effectiveness", "Festival_Sales_Boost",
    "Stockout_Risk", "Overstock_Risk", "Recyclability_Score", "Markdown_History"]

  const DeadStockFields: seq<string> := [
    "Days_Since_Last_Sale", "Average_Turnover_Time", "Promo_Effectiveness", "Redundancy_Index",
    "Forecasted_Demand", "Historical_Sell_Through", "Shelf_Space_Efficiency", "Recyclability_Score",
    "Overstock_Risk", "Stockout_Risk"]

  const MarkdownFields: seq<string> := [
    "Spoilage_Risk_Score", "Days_to_Expiry", "Overstock_Risk", "Historical_Sell_Through",
    "Forecasted_Demand", "Dead_Inventory_Flag", "Promo_Effectiveness", "Cold_Chain_Energy_Use",
    "Sensor_Anomalies", "Waste_Risk_Index"]

  const SustainabilityFields: seq<string> := [
    "Embedded_Carbon_Footprint", "Cold_Chain_Energy_Use", "Transport_Emissions", "Recycled_Content_Pct",
    "Recyclability_Score", "Compostability_Score", "Take_Back_Eligible", "Footprint_Factor"]

  /** Every field the handler reads, in the order it reads them. */
  const AllFields: seq<string> :=
    SpoilageFields + ExpiryFields + DemandFields + DeadStockFields + MarkdownFields + SustainabilityFields

  /** The KeyError of a subscript on a missing field. */
  datatype FeatureError = MissingFeature(name: string)

  /** The listed fields read one by one; the first one absent stops the read. */
  function Gather(data: map<string, real>, names: seq<string>): (r: Result<seq<real>, FeatureError>)
    ensures r.Ok? ==> |r.value| == |names|
    ensures r.Err? ==> r.error.name in names && r.error.name !in data
  {
    if |names| == 0 then Ok([])
    else if names[0] !in data then Err(MissingFeature(names[0]))
    else
      match Gather(data, names[1..])
      case Ok(rest) => Ok([data[names[0]]] + rest)
      case Err(e) => Err(e)
  }

  /** A read succeeds exactly when every listed field is present, and then yields their
      values in listed order; otherwise it names the first absent field. */
  lemma {:induction false} GatherReads(data: map<string, real>, names: seq<string>)
    ensures Gather(data, names).Ok? <==> forall n :: n in names ==> n in data
    ensures Gather(data, names).Ok? ==> forall i :: 0 <= i < |names| ==> Gather(data, names).value[i] == data[names[i]]
    ensures Gather(data, names).Err? ==>
              exists i :: 0 <= i < |names| && names[i] == Gather(data, names).error.name
                          && forall j :: 0 <= j < i ==> names[j] in data
  {
    if |names| > 0 && names[0] in data {
      GatherReads(data, names[1..]);
      assert forall n :: n in names <==> n == names[0] || n in names[1..];
      var r := Gather(data, names[1..]);
      if r.Err? {
        var i :| 0 <= i < |names[1..]| && names[1..][i] == r.error.name
                 && forall j :: 0 <= j < i ==> names[1..][j] in data;
        assert names[i + 1] == r.error.name && forall j :: 1 <= j < i + 1 ==> names[j] == names[1..][j - 1];
      }
    }
  }

  /** Reading `a` then `b` is reading `a + b`: the same vector, or the same first missing field. */
  lemma {:induction false} GatherAppend(data: map<string, real>, a: seq<string>, b: seq<string>)
    ensures AppendLaw(data, a, b)
  {
    if |a| == 0 {
      GatherAppendEmpty(data, a, b);
    } else if a[0] !in data {
      assert (a + b)[0] == a[0];
    } else {
      GatherAppend(data, a[1..], b);
      GatherAppendPresent(data, a, b);
    }
  }

  /** `Gather` over `a + b` agrees with reading `a`, then `b`. */
  predicate AppendLaw(data: map<string, real>, a: seq<string>, b: seq<string>) {
    && (Gather(data, a).Err? ==> Gather(data, a + b) == Gather(data, a))
    && (Gather(data, a).Ok? && Gather(data, b).Err? ==> Gather(data, a + b) == Gather(data, b))
    && (Gather(data, a).Ok? && Gather(data, b).Ok? ==>
          Gather(data, a + b) == Ok(Gather(data, a).value + Gather(data, b).value))
  }

  /** The law carries over a present first field. */
  lemma GatherAppendPresent(data: map<string, real>, a: seq<string>, b: seq<string>)
    requires |a| > 0 && a[0] in data
    requires AppendLaw(data, a[1..], b)
    ensures AppendLaw(data, a, b)
  {
    assert (a + b)[0] == a[0] && (a + b)[1..] == a[1..] + b;
    GatherStep(data, a);
    GatherStep(data, a + b);
    if Gather(data, a[1..]).Ok? && Gather(data, b).Ok? {
      var x, y := Gather(data, a[1..]).value, Gather(data, b).value;
      assert [data[a[0]]] + (x + y) == ([data[a[0]]] + x) + y;
    }
  }

  lemma GatherAppendEmpty(data: map<string, real>, a: seq<string>, b: seq<string>)
    requires |a| == 0
    ensures AppendLaw(data, a, b)
  {
    assert a + b == b;
    if Gather(data, b).Ok? {
      assert [] + Gather(data, b).value == Gather(data, b).value;
    }
  }

  /** One unfolding of `Gather` past a present first field. */
  lemma GatherStep(data: map<string, real>, names: seq<string>)
    requires |names| > 0 && names[0] in data
    ensures Gather(data, names[1..]).Err? ==> Gather(data, names) == Gather(data, names[1..])
    ensures Gather(data, names[1..]).Ok? ==> Gather(data, names) == Ok([data[names[0]]] + Gather(data, names[1..]).value)
  {
  }

  /** The six model inputs. */
  datatype Vectors = Vectors(
    spoilage: seq<real>, expiry: seq<real>, demand: seq<real>,
    deadStock: seq<real>, markdown: seq<real>, sustainability: seq<real>)

  /** The six arrays built in source order, before any model runs. */
  function Assemble(data: map<string, real>): (r: Result<Vectors, FeatureError>)
    ensures r.Ok? ==> && |r.value.spoilage| == 11 && |r.value.expiry| == 11 && |r.value.demand| == 12
                      && |r.value.deadStock| == 10 && |r.value.markdown| == 10 && |r.value.sustainability| == 8
    ensures r.Ok? ==> r.value.spoilage == r.value.expiry
  {
    var spoilage :- Gather(data, SpoilageFields);
    // The expiry list repeats the spoilage list, so its read cannot fail here.
    match Gather(data, ExpiryFields)
    case Err(e) => Err(e)
    case Ok(expiry) =>
      var demand :- Gather(data, DemandFields);
      var deadStock :- Gather(data, DeadStockFields);
      var markdown :- Gather(data, MarkdownFields);
      var sustainability :- Gather(data, SustainabilityFields);
      Ok(Vectors(spoilage, expiry, demand, deadStock, markdown, sustainability))
  }

  /** Building the six arrays fails exactly when reading all fields in order fails, and
      with the same field: the first missing one in evaluation order. On success each
      vector is its list's values in listed order. */
  lemma {:induction false} AssembleReadsInOrder(data: map<string, real>)
    ensures Assemble(data).Err? <==> Gather(data, AllFields).Err?
    ensures Assemble(data).Err? ==> Assemble(data).error == Gather(data, AllFields).error
    ensures Assemble(data).Ok? ==>
              var v := Assemble(data).value;
              && v.spoilage == Gather(data, SpoilageFields).value
              && v.expiry == Gather(data, ExpiryFields).value
              && v.demand == Gather(data, DemandFields).value
              && v.deadStock == Gather(data, DeadStockFields).value
              && v.markdown == Gather(data, MarkdownFields).value
              && v.sustainability == Gather(data, SustainabilityFields).value
  {
    var p1 := SpoilageFields;
    var p2 := p1 + ExpiryFields;
    var p3 := p2 + DemandFields;
    var p4 := p3 + DeadStockFields;
    var p5 := p4 + MarkdownFields;
    GatherAppend(data, p1, ExpiryFields);
    GatherAppend(data, p2, DemandFields);
    GatherAppend(data, p3, DeadStockFields);
    GatherAppend(data, p4, MarkdownFields);
    GatherAppend(data, p5, SustainabilityFields);
  }

  /** The pickled objects app.py loads: each model maps its input vector to a raw output
      (a class index for the classifiers), or raises. */
  datatype AppModels = AppModels(
    spoilage: seq<real> -> Result<int, string>,
    spoilageEncoder: LabelEncoder,
    expiry: seq<real> -> Result<real, string>,
    demand: seq<real> -> Result<real, string>,
    deadStock: seq<real> -> Result<real, string>,
    markdown: seq<real> -> Result<real, string>,
    sustainability: seq<real> -> Result<int, string>,
    sustainabilityEncoder: LabelEncoder)

  datatype AppPrediction = AppPrediction(
    spoilageRisk: string, daysToExpiry: int, forecastedDemand: real,
    deadStock: bool, triggerMarkdown: bool, sustainabilityLabel: string)

  const ResponseKeys: seq<string> := [
    "spoilage_risk", "days_to_expiry", "forecasted_demand", "dead_stock",
    "trigger_markdown", "sustainability_label"]

  function ResponseMap(p: AppPrediction): map<string, Value> {
    map[
      "spoilage_risk" := VStr(p.spoilageRisk),
      "days_to_expiry" := VInt(p.daysToExpiry),
      "forecasted_demand" := VFloat(p.forecastedDemand),
      "dead_stock" := VBool(p.deadStock),
      "trigger_markdown" := VBool(p.triggerMarkdown),
      "sustainability_label" := VStr(p.sustainabilityLabel)]
  }

  /** The JSON answer has exactly the six documented keys. */
  lemma ResponseShape(p: AppPrediction)
    ensures ResponseMap(p).Keys == set k | k in ResponseKeys
    ensures |ResponseMap(p)| == 6
  {
    assert |ResponseMap(p).Keys| == 6;
  }

  /** The message `str(e)` gives for a KeyError: the key in quotes. */
  function KeyErrorText(e: FeatureError): string {
    "'" + e.name + "'"
  }

  /** What decoding a classifier's output raises: nothing when the classifier itself
      raised (that step failed already) or the code is a known class index. */
  function LabelStep(enc: LabelEncoder, code: Result<int, string>): (e: Option<string>)
    ensures e.Some? <==> code.Ok? && !(0 <= code.value < |enc.classes|)
    ensures e.Some? ==> e.value == UnseenLabels(code.value)
  {
    if code.Ok? then ErrorOf(InverseTransform(enc, code.value)) else None
  }

  /** The eight steps of the handler that can raise, in the order it runs them, each
      with the text of its exception. */
  function AppSteps(m: AppModels, v: Vectors): (s: seq<Option<string>>)
    ensures |s| == 8
  {
    [ErrorOf(m.spoilage(v.spoilage)), LabelStep(m.spoilageEncoder, m.spoilage(v.spoilage)),
     ErrorOf(m.expiry(v.expiry)), ErrorOf(m.demand(v.demand)), ErrorOf(m.deadStock(v.deadStock)),
     ErrorOf(m.markdown(v.markdown)),
     ErrorOf(m.sustainability(v.sustainability)), LabelStep(m.sustainabilityEncoder, m.sustainability(v.sustainability))]
  }

  /** The six predictions, each converted the way the handler converts it; they all
      succeed exactly when no model or encoder raises. */
  function Predictions(m: AppModels, v: Vectors): (r: Result<AppPrediction, string>)
    ensures r.Ok? <==> AllPass(AppSteps(m, v))
    ensures r.Ok? ==> var raw := m.spoilage(v.spoilage);
                      && raw.Ok? && 0 <= raw.value < |m.spoilageEncoder.classes|
                      && r.value.spoilageRisk == m.spoilageEncoder.classes[raw.value]
    ensures r.Ok? ==> var raw := m.sustainability(v.sustainability);
                      && raw.Ok? && 0 <= raw.value < |m.sustainabilityEncoder.classes|
                      && r.value.sustainabilityLabel == m.sustainabilityEncoder.classes[raw.value]
    ensures r.Ok? ==> && m.expiry(v.expiry).Ok? && r.value.daysToExpiry == TruncateToInt(m.expiry(v.expiry).value)
                      && m.deadStock(v.deadStock).Ok? && r.value.deadStock == Truthy(m.deadStock(v.deadStock).value)
                      && m.markdown(v.markdown).Ok? && r.value.triggerMarkdown == Truthy(m.markdown(v.markdown).value)
                      && m.demand(v.demand).Ok?
                      && RoundDigits(m.demand(v.demand).value, 2) == r.value.forecastedDemand
  {
    var s := AppSteps(m, v);
    assert AllPass(s) <==> s[0].None? && s[1].None? && s[2].None? && s[3].None?
                           && s[4].None? && s[5].None? && s[6].None? && s[7].None?;
    var spoilageCode :- m.spoilage(v.spoilage);
    var spoilageLabel :- InverseTransform(m.spoilageEncoder, spoilageCode);
    var expiry :- m.expiry(v.expiry);
    var demand :- m.demand(v.demand);
    var dead :- m.deadStock(v.deadStock);
    var markdown :- m.markdown(v.markdown);
    var sustainCode :- m.sustainability(v.sustainability);
    var sustainLabel :- InverseTransform(m.sustainabilityEncoder, sustainCode);
    Ok(AppPrediction(spoilageLabel, TruncateToInt(expiry), RoundDigits(demand, 2),
                     Truthy(dead), Truthy(markdown), sustainLabel))
  }

  /** A failing prediction answers with the text of the first step that raises, in the
      order app.py runs them. */
  lemma PredictionsFirstError(m: AppModels, v: Vectors)
    requires Predictions(m, v).Err?
    ensures exists k :: FirstFailure(AppSteps(m, v), k, Predictions(m, v).error)
  {
    var s := AppSteps(m, v);
    var e := Predictions(m, v).error;
    var k := if s[0].Some? then 0 else if s[1].Some? then 1 else if s[2].Some? then 2
             else if s[3].Some? then 3 else if s[4].Some? then 4 else if s[5].Some? then 5
             else if s[6].Some? then 6 else 7;
    assert FirstFailure(s, k, e);
  }

  datatype AppBody = Fields(fields: map<string, Value>) | Failure(message: string)

  datatype AppResponse = AppResponse(status: int, body: AppBody)

  /** POST /predict. `data` is the decoded JSON body (None for `null`). Every exception
      inside the handler, a missing field included, becomes a 400 with its text. */
  function PredictEndpoint(m: AppModels, data: Option<map<string, real>>): (r: AppResponse)
    ensures r.status == 200 || r.status == 400
    ensures r.status == 400 <==> r.body.Failure?
    ensures data.None? ==> r.status == 400
    ensures data.Some? && Gather(data.value, AllFields).Err? ==>
              r == AppResponse(400, Failure(KeyErrorText(Gather(data.value, AllFields).error)))
    ensures r.status == 200 ==>
              && data.Some? && Assemble(data.value).Ok?
              && var v := Assemble(data.value).value;
              && Predictions(m, v).Ok?
              && r.body.fields == ResponseMap(Predictions(m, v).value)
              && r.body.fields.Keys == set k | k in ResponseKeys
    ensures data.Some? && Assemble(data.value).Ok? ==>
              var p := Predictions(m, Assemble(data.value).value);
              && (p.Ok? ==> r == AppResponse(200, Fields(ResponseMap(p.value))))
              && (p.Err? ==> r == AppResponse(400, Failure(p.error)))
  {
    match data
    case None => AppResponse(400, Failure("'NoneType' object is not subscriptable"))
    case Some(d) =>
      AssembleReadsInOrder(d);
      match Assemble(d)
      case Err(e) => AppResponse(400, Failure(KeyErrorText(e)))
      case Ok(v) =>
        match Predictions(m, v)
        case Err(message) => AppResponse(400, Failure(message))
        case Ok(p) =>
          ResponseShape(p);
          AppResponse(200, Fields(ResponseMap(p)))
  }

  /** The values of the listed fields, in listed order. */
  function Read(data: map<string, real>, names: seq<string>): (r: seq<real>)
    requires forall n :: n in names ==> n in data
    ensures |r| == |names| && forall i :: 0 <= i < |names| ==> r[i] == data[names[i]]
  {
    seq(|names|, i requires 0 <= i < |names| => data[names[i]])
  }

  /** A body missing fields is answered 400 with the quoted name of the first missing
      field in the order the handler reads them. */
  lemma MissingFieldAnswer(m: AppModels, data: map<string, real>, i: int)
    requires 0 <= i < |AllFields| && AllFields[i] !in data
    requires forall j :: 0 <= j < i ==> AllFields[j] in data
    ensures PredictEndpoint(m, Some(data)) == AppResponse(400, Failure("'" + AllFields[i] + "'"))
  {
    GatherReads(data, AllFields);
    assert Gather(data, AllFields).Err?;
    var k :| 0 <= k < |AllFields| && AllFields[k] == Gather(data, AllFields).error.name
             && forall j :: 0 <= j < k ==> AllFields[j] in data;
  }

  /** A body with every field runs the six models on the fields' values, vector by
      vector in the handler's order, and answers 200 with the six predictions, or 400
      with the text of whatever a model or encoder raised. */
  lemma CompleteBodyAnswer(m: AppModels, data: map<string, real>)
    requires forall n :: n in AllFields ==> n in data
    ensures var v := Vectors(Read(data, SpoilageFields), Read(data, ExpiryFields), Read(data, DemandFields),
                             Read(data, DeadStockFields), Read(data, MarkdownFields), Read(data, SustainabilityFields));
            var p := Predictions(m, v);
            PredictEndpoint(m, Some(data))
              == if p.Ok? then AppResponse(200, Fields(ResponseMap(p.value))) else AppResponse(400, Failure(p.error))
  {
    GatherReads(data, AllFields);
    AssembleReadsInOrder(data);
    FieldListRead(data, SpoilageFields);
    FieldListRead(data, ExpiryFields);
    FieldListRead(data, DemandFields);
    FieldListRead(data, DeadStockFields);
    FieldListRead(data, MarkdownFields);
    FieldListRead(data, SustainabilityFields);
  }

  lemma FieldListRead(data: map<string, real>, names: seq<string>)
    requires forall n :: n in names ==> n in data
    ensures Gather(data, names) == Ok(Read(data, names))
  {
    GatherReads(data, names);
    var v := Gather(data, names).value;
    assert |v| == |names| && forall i :: 0 <= i < |names| ==> v[i] == Read(data, names)[i];
    assert v == Read(data, names);
  }
}
