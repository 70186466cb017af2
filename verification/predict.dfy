/** The single-row predictor shared by the batch cache and the JSON/CSV endpoints (predict.py). */
module Predict {
  import opened Results
  import opened Values
  import opened Estimators

  /** One row of a DataFrame: column name to cell value. */
  type Row = map<string, Value>

  /** A fitted estimator: the column names it was trained on (`feature_names_in_`)
      and its `predict` on the selected cells of one row, which may raise. */
  datatype Estimator<T> = Estimator(featureNames: seq<string>, predict: seq<Value> -> Result<T, string>)

  /** The objects predict.py loads once at import time. */
  datatype Models = Models(
    spoilage: Estimator<int>,
    spoilageEncoder: LabelEncoder,
    expiry: Estimator<real>,
    demand: Estimator<real>,
    deadStock: Estimator<int>,
    markdownPercent: Estimator<real>,
    sustainability: Estimator<int>,
    sustainabilityEncoder: LabelEncoder)

  /** The exceptions `predict_single_product` can raise. */
  datatype PredictError =
    | NotSingleRow(rows: nat)            // ValueError from the shape check
    | MissingColumns(names: seq<string>, requested: seq<string>)
                                         // KeyError from `row[feature_names_in_]`
    | ModelFailure(message: string)      // anything a model or encoder raises

  /** The dictionary `predict_single_product` returns. */
  datatype PredictionResult = PredictionResult(
    spoilageRisk: string,
    daysToExpiry: int,
    forecastedDemand: real,
    deadStock: bool,
    triggerMarkdown: bool,
    suggestedMarkdownPercent: real,
    sustainabilityLabel: string)

  /** The keys of that dictionary, in insertion order. */
  const ResultKeys: seq<string> := [
    "spoilage_risk", "days_to_expiry", "forecasted_demand", "dead_stock",
    "trigger_markdown", "suggested_markdown_percent", "sustainability_label"
  ]

  /** The dictionary's values, in key order (the cells a CSV output row gains). */
  function ResultValues(p: PredictionResult): (r: seq<Value>)
    ensures |r| == |ResultKeys|
  {
    [VStr(p.spoilageRisk), VInt(p.daysToExpiry), VFloat(p.forecastedDemand), VBool(p.deadStock),
     VBool(p.triggerMarkdown), VFloat(p.suggestedMarkdownPercent), VStr(p.sustainabilityLabel)]
  }

  /** The dictionary itself. */
  function ResultMap(p: PredictionResult): map<string, Value> {
    map[
      "spoilage_risk" := VStr(p.spoilageRisk),
      "days_to_expiry" := VInt(p.daysToExpiry),
      "forecasted_demand" := VFloat(p.forecastedDemand),
      "dead_stock" := VBool(p.deadStock),
      "trigger_markdown" := VBool(p.triggerMarkdown),
      "suggested_markdown_percent" := VFloat(p.suggestedMarkdownPercent),
      "sustainability_label" := VStr(p.sustainabilityLabel)]
  }

  /** The dictionary has exactly seven keys, the documented ones, and its values
      follow the key order the CSV output uses. */
  lemma ResultMapShape(p: PredictionResult)
    ensures ResultMap(p).Keys == set k | k in ResultKeys
    ensures |ResultMap(p)| == 7
    ensures forall i :: 0 <= i < |ResultKeys| ==> ResultMap(p)[ResultKeys[i]] == ResultValues(p)[i]
  {
    var ks := ResultMap(p).Keys;
    assert |ks| == 7;
  }

  lemma ResultMapFields(p: PredictionResult)
    ensures var res := ResultMap(p);
            && res["spoilage_risk"] == VStr(p.spoilageRisk)
            && res["days_to_expiry"] == VInt(p.daysToExpiry)
            && res["forecasted_demand"] == VFloat(p.forecastedDemand)
            && res["dead_stock"] == VBool(p.deadStock)
            && res["trigger_markdown"] == VBool(p.triggerMarkdown)
            && res["suggested_markdown_percent"] == VFloat(p.suggestedMarkdownPercent)
            && res["sustainability_label"] == VStr(p.sustainabilityLabel)
  {
  }

  /** The requested columns a row lacks, in request order. */
  function Missing(row: Row, names: seq<string>): (r: seq<string>)
    ensures forall n :: n in r <==> n in names && n !in row
    ensures |r| <= |names|
  {
    if |names| == 0 then []
    else if names[0] in row then Missing(row, names[1..])
    else [names[0]] + Missing(row, names[1..])
  }

  /** Every requested name is missing exactly when the list of missing names is as
      long as the request. */
  lemma {:induction false} MissingAll(row: Row, names: seq<string>)
    ensures |Missing(row, names)| == |names| <==> forall n :: n in names ==> n !in row
  {
    if |names| > 0 {
      MissingAll(row, names[1..]);
      assert forall n :: n in names <==> n == names[0] || n in names[1..];
    }
  }

  /** `row[names]`: the cells in the order asked, or a KeyError naming every missing column. */
  function SelectColumns(row: Row, names: seq<string>): (r: Result<seq<Value>, PredictError>)
    ensures r.Ok? <==> forall n :: n in names ==> n in row
    ensures r.Ok? ==> |r.value| == |names| && forall i :: 0 <= i < |names| ==> r.value[i] == row[names[i]]
    ensures r.Err? ==> r.error.MissingColumns? && |r.error.names| > 0 && r.error.requested == names
                       && forall n :: n in r.error.names <==> n in names && n !in row
    ensures r.Err? ==> (|r.error.names| == |names| <==> forall n :: n in names ==> n !in row)
  {
    var missing := Missing(row, names);
    if |missing| > 0 then
      assert missing[0] in missing;
      MissingAll(row, names);
      Err(MissingColumns(missing, names))
    else
      Ok(seq(|names|, i requires 0 <= i < |names| => row[names[i]]))
  }

  /** Selecting an estimator's columns from the row and calling its `predict`. */
  function Apply<T>(e: Estimator<T>, row: Row): (r: Result<T, PredictError>)
    ensures (r.Err? && r.error.MissingColumns?) <==> exists n :: n in e.featureNames && n !in row
    ensures r.Err? && r.error.MissingColumns? ==> forall n :: n in r.error.names <==> n in e.featureNames && n !in row
    ensures r.Err? && r.error.MissingColumns? ==> r.error.requested == e.featureNames
    ensures (forall n :: n in e.featureNames ==> n in row) ==>
              var out := e.predict(seq(|e.featureNames|, i requires 0 <= i < |e.featureNames| => row[e.featureNames[i]]));
              && (r.Ok? <==> out.Ok?)
              && (r.Ok? ==> r.value == out.value)
              && (r.Err? ==> r.error == ModelFailure(out.error))
  {
    var cells :- SelectColumns(row, e.featureNames);
    assert cells == seq(|e.featureNames|, i requires 0 <= i < |e.featureNames| => row[e.featureNames[i]]);
    match e.predict(cells)
    case Ok(v) => Ok(v)
    case Err(msg) => Err(ModelFailure(msg))
  }

  function Decode(enc: LabelEncoder, code: int): Result<string, PredictError> {
    match InverseTransform(enc, code)
    case Ok(name) => Ok(name)
    case Err(msg) => Err(ModelFailure(msg))
  }

  /** The decoding step: it fails only when the classifier answered a code the
      encoder never saw. */
  function DecodeStep(enc: LabelEncoder, code: Result<int, PredictError>): (e: Option<PredictError>)
    ensures e.Some? <==> code.Ok? && !(0 <= code.value < |enc.classes|)
    ensures e.Some? ==> e.value == ModelFailure(UnseenLabels(code.value))
  {
    if code.Ok? then ErrorOf(Decode(enc, code.value)) else None
  }

  /** The eight steps of `predict_single_product` that can raise, in the order it
      runs them, each with the exception it raises. */
  function Steps(m: Models, row: Row): (s: seq<Option<PredictError>>)
    ensures |s| == 8
  {
    [ErrorOf(Apply(m.spoilage, row)), DecodeStep(m.spoilageEncoder, Apply(m.spoilage, row)),
     ErrorOf(Apply(m.expiry, row)), ErrorOf(Apply(m.demand, row)), ErrorOf(Apply(m.deadStock, row)),
     ErrorOf(Apply(m.markdownPercent, row)),
     ErrorOf(Apply(m.sustainability, row)), DecodeStep(m.sustainabilityEncoder, Apply(m.sustainability, row))]
  }

  /** `predict_single_product(frame)`: six models run in order on the frame's only row. */
  function PredictSingle(m: Models, frame: seq<Row>): (r: Result<PredictionResult, PredictError>)
    ensures |frame| != 1 ==> r == Err(NotSingleRow(|frame|))
    ensures r.Ok? <==> |frame| == 1 && AllPass(Steps(m, frame[0]))
    ensures r.Ok? ==> (r.value.triggerMarkdown <==> r.value.suggestedMarkdownPercent > 0.0)
    ensures r.Ok? ==> var raw := Apply(m.spoilage, frame[0]);
                      && raw.Ok? && 0 <= raw.value < |m.spoilageEncoder.classes|
                      && r.value.spoilageRisk == m.spoilageEncoder.classes[raw.value]
    ensures r.Ok? ==> var raw := Apply(m.sustainability, frame[0]);
                      && raw.Ok? && 0 <= raw.value < |m.sustainabilityEncoder.classes|
                      && r.value.sustainabilityLabel == m.sustainabilityEncoder.classes[raw.value]
    ensures r.Ok? ==> var raw := Apply(m.demand, frame[0]);
                      && raw.Ok? && raw.value - 1.0 / 2000.0 <= r.value.forecastedDemand <= raw.value + 1.0 / 2000.0
                      && Scaled(r.value.forecastedDemand, 3).Floor as real == Scaled(r.value.forecastedDemand, 3)
                      && r.value.forecastedDemand == RoundDigits(raw.value, 3)
    ensures r.Ok? ==> var raw := Apply(m.markdownPercent, frame[0]);
                      && raw.Ok? && raw.value - 1.0 / 200.0 <= r.value.suggestedMarkdownPercent <= raw.value + 1.0 / 200.0
                      && Scaled(r.value.suggestedMarkdownPercent, 2).Floor as real == Scaled(r.value.suggestedMarkdownPercent, 2)
                      && r.value.suggestedMarkdownPercent == RoundDigits(raw.value, 2)
    ensures r.Ok? ==> var raw := Apply(m.expiry, frame[0]);
                      && raw.Ok? && raw.value - 1.0 / 2.0 <= r.value.daysToExpiry as real <= raw.value + 1.0 / 2.0
                      && r.value.daysToExpiry == RoundHalfEven(raw.value)
    ensures r.Ok? ==> var raw := Apply(m.deadStock, frame[0]);
                      raw.Ok? && r.value.deadStock == (raw.value != 0)
  {
    if |frame| != 1 then Err(NotSingleRow(|frame|))
    else
      var row := frame[0];
      var s := Steps(m, row);
      assert AllPass(s) <==> s[0].None? && s[1].None? && s[2].None? && s[3].None?
                             && s[4].None? && s[5].None? && s[6].None? && s[7].None?;
      var spoilageCode :- Apply(m.spoilage, row);
      var spoilageLabel :- Decode(m.spoilageEncoder, spoilageCode);
      var expiry :- Apply(m.expiry, row);
      var demand :- Apply(m.demand, row);
      var deadCode :- Apply(m.deadStock, row);
      var percent :- Apply(m.markdownPercent, row);
      var suggested := RoundDigits(percent, 2);
      RoundDigitsNear(demand, percent);
      var sustainCode :- Apply(m.sustainability, row);
      var sustainLabel :- Decode(m.sustainabilityEncoder, sustainCode);
      Ok(PredictionResult(
        spoilageLabel,
        RoundHalfEven(expiry),
        RoundDigits(demand, 3),
        deadCode != 0,
        suggested > 0.0,
        suggested,
        sustainLabel))
  }

  /** A failing prediction on a one-row frame raises the exception of the first step
      that fails, in the order predict.py runs them. */
  lemma PredictSingleFirstError(m: Models, row: Row)
    requires PredictSingle(m, [row]).Err?
    ensures exists k :: FirstFailure(Steps(m, row), k, PredictSingle(m, [row]).error)
  {
    var s := Steps(m, row);
    var e := PredictSingle(m, [row]).error;
    var k := if s[0].Some? then 0 else if s[1].Some? then 1 else if s[2].Some? then 2
             else if s[3].Some? then 3 else if s[4].Some? then 4 else if s[5].Some? then 5
             else if s[6].Some? then 6 else 7;
    assert FirstFailure(s, k, e);
  }

  /** Rounding to three and to two decimals moves a value by at most half a unit
      of the last kept place. */
  lemma RoundDigitsNear(x: real, y: real)
    ensures x - 1.0 / 2000.0 <= RoundDigits(x, 3) <= x + 1.0 / 2000.0
    ensures y - 1.0 / 200.0 <= RoundDigits(y, 2) <= y + 1.0 / 200.0
  {
    assert Pow10(2) == 100 && Pow10(3) == 1000;
    assert Scaled(x, 3) == x * 1000.0 && Scaled(RoundDigits(x, 3), 3) == RoundDigits(x, 3) * 1000.0;
    assert Scaled(y, 2) == y * 100.0 && Scaled(RoundDigits(y, 2), 2) == RoundDigits(y, 2) * 100.0;
  }

  /** Because the flag is taken after rounding to two decimals, a raw markdown output
      fires the trigger exactly when it exceeds half a hundredth (exactly 1/200 rounds to 0). */
  lemma TriggerThreshold(x: real)
    ensures RoundDigits(x, 2) > 0.0 <==> x > 1.0 / 200.0
  {
    assert Pow10(2) == 100;
    assert Scaled(x, 2) == x * 100.0;
    var k := RoundHalfEven(x * 100.0);
    assert RoundDigits(x, 2) == k as real / 100.0;
    if x > 1.0 / 200.0 {
      assert k as real > 0.0;
    } else if x == 1.0 / 200.0 {
      assert (x * 100.0).Floor == 0;
      assert k == 0;
    } else {
      assert k as real < 1.0;
    }
  }

  /** The markdown trigger of a successful prediction, stated on the model's raw output. */
  lemma TriggerFromRawOutput(m: Models, frame: seq<Row>)
    requires PredictSingle(m, frame).Ok?
    ensures Apply(m.markdownPercent, frame[0]).Ok?
    ensures PredictSingle(m, frame).value.triggerMarkdown
            <==> Apply(m.markdownPercent, frame[0]).value > 1.0 / 200.0
  {
    TriggerThreshold(Apply(m.markdownPercent, frame[0]).value);
  }

  /** Days to expiry are not clamped: a model output of minus one or less yields a
      negative day count. */
  lemma ExpiryNotClamped(m: Models, frame: seq<Row>)
    requires PredictSingle(m, frame).Ok?
    requires Apply(m.expiry, frame[0]).Ok? && Apply(m.expiry, frame[0]).value <= -1.0
    ensures PredictSingle(m, frame).value.daysToExpiry < 0
  {
  }
}
