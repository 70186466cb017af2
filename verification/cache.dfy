/** The batch run that recomputes every product's prediction and caches it as the
    product's single latest row (cache_predictions.py). */
module Cache {
  import opened Results
  import opened Values
  import opened Schema
  import opened Predict

  /** Row `i` of `t` is marked latest for product `pid`. */
  predicate IsLatestFor(t: seq<PredictionRow>, pid: int, i: int) {
    0 <= i < |t| && t[i].productId == pid && t[i].isLatest
  }

  /** Row `j` is the one and only row of `t` marked latest for `pid`. */
  ghost predicate OnlyLatest(t: seq<PredictionRow>, pid: int, j: int) {
    IsLatestFor(t, pid, j) && forall i :: IsLatestFor(t, pid, i) ==> i == j
  }

  /** Product `pid` has the same latest rows in `a` as in `b`. */
  ghost predicate SameLatest(a: seq<PredictionRow>, b: seq<PredictionRow>, pid: int) {
    forall i :: IsLatestFor(a, pid, i) <==> IsLatestFor(b, pid, i)
  }

  /** Two rows agree on everything except, possibly, the latest flag. */
  predicate SameExceptLatest(a: PredictionRow, b: PredictionRow) {
    a.(isLatest := false) == b.(isLatest := false)
  }

  /** The attribute dictionary of a loaded product: its columns plus the ORM's
      private instance state (whose value the model does not need). */
  function LoadedAttributes(p: ProductRow): map<string, Value> {
    p.features + map["id" := VInt(p.id), "sku" := VStr(p.sku), "_sa_instance_state" := VNull]
  }

  /** The row dictionary handed to the predictor: every attribute except private
      ones (leading `_`), `id`, `sku` and `predictions`. */
  function RowDict(attrs: map<string, Value>): (r: map<string, Value>)
    ensures forall k :: k in r <==> k in attrs && !StartsWith(k, "_") && k != "id" && k != "sku" && k != "predictions"
    ensures forall k :: k in r ==> r[k] == attrs[k]
  {
    map k | k in attrs && !StartsWith(k, "_") && k !in ["id", "sku", "predictions"] :: attrs[k]
  }

  /** For a well-formed product the predictor sees exactly its feature columns. */
  lemma RowDictOfProduct(p: ProductRow)
    requires WellFormed(p)
    ensures RowDict(LoadedAttributes(p)) == p.features
  {
    WellFormedKeysCapitalised(p);
    RowDictOfCapitalised(p);
  }

  lemma WellFormedKeysCapitalised(p: ProductRow)
    requires WellFormed(p)
    ensures forall k :: k in p.features ==> |k| > 0 && 'A' <= k[0] <= 'Z'
  {
    FeatureColumnsCapitalised();
  }

  lemma RowDictOfCapitalised(p: ProductRow)
    requires forall k :: k in p.features ==> |k| > 0 && 'A' <= k[0] <= 'Z'
    ensures RowDict(LoadedAttributes(p)) == p.features
  {
    RowDictKeepsFeatures(p);
    RowDictOnlyFeatures(p);
    SameEntries(RowDict(LoadedAttributes(p)), p.features);
  }

  lemma SameEntries(a: map<string, Value>, b: map<string, Value>)
    requires forall k :: k in b ==> k in a && a[k] == b[k]
    requires forall k :: k in a ==> k in b
    ensures a == b
  {
    assert a.Keys == b.Keys;
  }

  lemma RowDictKeepsFeatures(p: ProductRow)
    requires forall k :: k in p.features ==> |k| > 0 && 'A' <= k[0] <= 'Z'
    ensures forall k :: k in p.features ==> k in RowDict(LoadedAttributes(p)) && RowDict(LoadedAttributes(p))[k] == p.features[k]
  {
    forall k | k in p.features
      ensures k in RowDict(LoadedAttributes(p)) && RowDict(LoadedAttributes(p))[k] == p.features[k]
    {
      CapitalisedIsPublic(k);
    }
  }

  lemma RowDictOnlyFeatures(p: ProductRow)
    ensures forall k :: k in RowDict(LoadedAttributes(p)) ==> k in p.features
  {
    assert StartsWith("_sa_instance_state", "_") by {
      assert "_sa_instance_state"[..1] == "_";
    }
  }

  /** A capitalised name is neither private nor one of the dropped attributes. */
  lemma CapitalisedIsPublic(k: string)
    requires |k| > 0 && 'A' <= k[0] <= 'Z'
    ensures !StartsWith(k, "_") && k != "id" && k != "sku" && k != "predictions" && k != "_sa_instance_state"
  {
    assert k[..1] != "_" by {
      assert k[..1][0] == k[0];
    }
  }

  /** The row inserted for a prediction: the product's latest row, with
      `suggested_markdown_percent` left NULL. */
  function NewRow(pred: PredictionResult, pid: int, id: int, now: Timestamp): (r: PredictionRow)
    ensures r.productId == pid && r.isLatest && r.id == id && r.createdAt == now
    ensures r.suggestedMarkdownPercent == VNull
  {
    PredictionRow(
      id := id,
      productId := pid,
      spoilageRisk := VStr(pred.spoilageRisk),
      daysToExpiryPred := VInt(pred.daysToExpiry),
      forecastedDemandPred := VFloat(pred.forecastedDemand),
      deadStock := VBool(pred.deadStock),
      suggestedMarkdownPercent := VNull,
      triggerMarkdown := VBool(pred.triggerMarkdown),
      sustainabilityLabel := VStr(pred.sustainabilityLabel),
      createdAt := now,
      isLatest := true)
  }

  /** The inserted row stores six entries of the predictor's dictionary under the
      matching columns. */
  lemma NewRowStoresResult(pred: PredictionResult, pid: int, id: int, now: Timestamp)
    ensures var r, res := NewRow(pred, pid, id, now), ResultMap(pred);
            && r.spoilageRisk == res["spoilage_risk"]
            && r.daysToExpiryPred == res["days_to_expiry"]
            && r.forecastedDemandPred == res["forecasted_demand"]
            && r.deadStock == res["dead_stock"]
            && r.triggerMarkdown == res["trigger_markdown"]
            && r.sustainabilityLabel == res["sustainability_label"]
  {
    ResultMapFields(pred);
  }

  /** The response block of a freshly cached row agrees with the predictor's
      dictionary on every stored field, under the table's column names, and shows
      no markdown percentage. */
  lemma CachedBlockMatchesResult(pred: PredictionResult, pid: int, id: int, now: Timestamp)
    ensures var block := PredictionBlock(NewRow(pred, pid, id, now));
            var res := ResultMap(pred);
            && block["spoilage_risk"] == res["spoilage_risk"]
            && block["days_to_expiry_pred"] == res["days_to_expiry"]
            && block["forecasted_demand_pred"] == res["forecasted_demand"]
            && block["dead_stock"] == res["dead_stock"]
            && block["trigger_markdown"] == res["trigger_markdown"]
            && block["sustainability_label"] == res["sustainability_label"]
            && block["suggested_markdown_percent"] == VNull
  {
    ResultMapFields(pred);
    CachedBlockFields(NewRow(pred, pid, id, now));
  }

  lemma CachedBlockFields(q: PredictionRow)
    ensures var block := PredictionBlock(q);
            && block["spoilage_risk"] == q.spoilageRisk
            && block["days_to_expiry_pred"] == q.daysToExpiryPred
            && block["forecasted_demand_pred"] == q.forecastedDemandPred
            && block["dead_stock"] == q.deadStock
            && block["trigger_markdown"] == q.triggerMarkdown
            && block["sustainability_label"] == q.sustainabilityLabel
            && block["suggested_markdown_percent"] == q.suggestedMarkdownPercent
  {
    assert PredictionColumn(q, "spoilage_risk") == q.spoilageRisk;
    assert PredictionColumn(q, "days_to_expiry_pred") == q.daysToExpiryPred;
    assert PredictionColumn(q, "forecasted_demand_pred") == q.forecastedDemandPred;
    assert PredictionColumn(q, "dead_stock") == q.deadStock;
    assert PredictionColumn(q, "trigger_markdown") == q.triggerMarkdown;
    assert PredictionColumn(q, "sustainability_label") == q.sustainabilityLabel;
    assert PredictionColumn(q, "suggested_markdown_percent") == q.suggestedMarkdownPercent;
  }

  /** One product's step: demote every row currently latest for `pid`, then append
      `rec` as that product's latest row. */
  function Supersede(t: seq<PredictionRow>, pid: int, rec: PredictionRow): (r: seq<PredictionRow>)
    ensures |r| == |t| + 1
    ensures r[|t|] == rec.(productId := pid, isLatest := true)
    ensures OnlyLatest(r, pid, |t|)
    ensures forall q :: q != pid ==> SameLatest(r, t, q)
    ensures forall i :: 0 <= i < |t| ==> SameExceptLatest(r[i], t[i])
    ensures forall i :: 0 <= i < |t| && t[i].productId != pid ==> r[i] == t[i]
  {
    var demoted := seq(|t|, i requires 0 <= i < |t| =>
      if t[i].productId == pid && t[i].isLatest then t[i].(isLatest := false) else t[i]);
    demoted + [rec.(productId := pid, isLatest := true)]
  }

  /** The predictor the batch calls on each product: `predict_single_product` on a
      one-row frame holding the product's row dictionary. */
  function PredictProduct(m: Models, p: ProductRow): Result<PredictionResult, PredictError> {
    PredictSingle(m, [RowDict(LoadedAttributes(p))])
  }

  /** One iteration for product `p`: predict, then supersede. */
  function Step(p: ProductRow, t: seq<PredictionRow>, predict: ProductRow -> Result<PredictionResult, PredictError>,
                now: Timestamp, id: int)
    : (r: Result<seq<PredictionRow>, PredictError>)
    ensures r.Ok? ==> |r.value| == |t| + 1 && r.value[|t|].productId == p.id
    ensures r.Ok? ==> predict(p).Ok? && r.value[|t|] == NewRow(predict(p).value, p.id, id, now)
    ensures r.Ok? ==> OnlyLatest(r.value, p.id, |t|)
    ensures r.Ok? ==> forall q :: q != p.id ==> SameLatest(r.value, t, q)
    ensures r.Ok? ==> forall i :: 0 <= i < |t| ==> SameExceptLatest(r.value[i], t[i])
    ensures r.Err? ==> predict(p).Err?
  {
    var pred :- predict(p);
    Ok(Supersede(t, p.id, NewRow(pred, p.id, id, now)))
  }

  /** Past the prefix `t`, row `|t| + k` of `r` is, up to its latest flag, the row
      inserted for `products[k]` with id `nextId + k`. */
  predicate AppendedRows(r: seq<PredictionRow>, t: seq<PredictionRow>, products: seq<ProductRow>,
                         predict: ProductRow -> Result<PredictionResult, PredictError>, now: Timestamp, nextId: int) {
    && |r| == |t| + |products|
    && forall k :: 0 <= k < |products| ==>
         predict(products[k]).Ok?
         && SameExceptLatest(r[|t| + k], NewRow(predict(products[k]).value, products[k].id, nextId + k, now))
  }

  lemma AppendedStep(products: seq<ProductRow>, t: seq<PredictionRow>, t': seq<PredictionRow>, r: seq<PredictionRow>,
                     predict: ProductRow -> Result<PredictionResult, PredictError>, now: Timestamp, nextId: int)
    requires |products| > 0 && |t'| == |t| + 1
    requires predict(products[0]).Ok? && t'[|t|] == NewRow(predict(products[0]).value, products[0].id, nextId, now)
    requires AppendedRows(r, t', products[1..], predict, now, nextId + 1)
    requires SameExceptLatest(r[|t|], t'[|t|])
    ensures AppendedRows(r, t, products, predict, now, nextId)
  {
    forall k | 1 <= k < |products|
      ensures predict(products[k]).Ok?
      ensures SameExceptLatest(r[|t| + k], NewRow(predict(products[k]).value, products[k].id, nextId + k, now))
    {
      assert products[1..][k - 1] == products[k];
      assert |t'| + (k - 1) == |t| + k;
    }
  }

  /** The loop over `products`, without the commit: the staged table, or the first
      exception raised. Row ids are handed out from `nextId` upward and every row is
      stamped `now`. */
  function ProcessAll(products: seq<ProductRow>, t: seq<PredictionRow>,
                      predict: ProductRow -> Result<PredictionResult, PredictError>, now: Timestamp, nextId: int)
    : (r: Result<seq<PredictionRow>, PredictError>)
    ensures r.Ok? ==> |r.value| == |t| + |products|
    ensures r.Ok? ==> forall i :: 0 <= i < |t| ==> SameExceptLatest(r.value[i], t[i])
    ensures r.Ok? ==> forall k :: 0 <= k < |products| ==> r.value[|t| + k].productId == products[k].id
    ensures r.Ok? ==> AppendedRows(r.value, t, products, predict, now, nextId)
    ensures r.Ok? ==> forall q :: (forall k :: 0 <= k < |products| ==> products[k].id != q)
                       ==> SameLatest(r.value, t, q)
    ensures r.Err? <==> exists k :: 0 <= k < |products| && predict(products[k]).Err?
    decreases |products|
  {
    if |products| == 0 then Ok(t)
    else
      var t' :- Step(products[0], t, predict, now, nextId);
      var rest := ProcessAll(products[1..], t', predict, now, nextId + 1);
      if rest.Ok? then
        assert forall k :: 1 <= k < |products| ==> rest.value[|t| + k].productId == products[k].id by {
          forall k | 1 <= k < |products| ensures rest.value[|t| + k].productId == products[k].id {
            assert rest.value[|t'| + (k - 1)].productId == products[1..][k - 1].id;
          }
        }
        assert SameExceptLatest(rest.value[|t|], t'[|t|]);
        AppendedStep(products, t, t', rest.value, predict, now, nextId);
        assert forall q :: (forall k :: 0 <= k < |products| ==> products[k].id != q)
                           ==> SameLatest(rest.value, t, q) by {
          forall q | forall k :: 0 <= k < |products| ==> products[k].id != q
            ensures SameLatest(rest.value, t, q)
          {
            assert products[0].id != q;
            assert forall k :: 0 <= k < |products[1..]| ==> products[1..][k].id != q;
            assert SameLatest(rest.value, t', q);
            assert SameLatest(t', t, q);
          }
        }
        rest
      else rest
  }

  predicate DistinctIds(products: seq<ProductRow>) {
    forall j, k :: 0 <= j < k < |products| ==> products[j].id != products[k].id
  }

  /** A successful pass starts with a successful step for the first product. */
  lemma ProcessAllFirstStep(products: seq<ProductRow>, t: seq<PredictionRow>, predict: ProductRow -> Result<PredictionResult, PredictError>, now: Timestamp, nextId: int)
    requires |products| > 0
    requires ProcessAll(products, t, predict, now, nextId).Ok?
    ensures Step(products[0], t, predict, now, nextId).Ok?
    ensures ProcessAll(products, t, predict, now, nextId)
            == ProcessAll(products[1..], Step(products[0], t, predict, now, nextId).value, predict, now, nextId + 1)
  {
  }

  /** Products not in the pass keep their latest rows. */
  lemma OthersKeepLatest(
    products: seq<ProductRow>, t: seq<PredictionRow>, predict: ProductRow -> Result<PredictionResult, PredictError>, now: Timestamp, nextId: int, q: int)
    requires ProcessAll(products, t, predict, now, nextId).Ok?
    requires forall j :: 0 <= j < |products| ==> products[j].id != q
    ensures SameLatest(ProcessAll(products, t, predict, now, nextId).value, t, q)
  {
  }

  lemma FirstKeepsLatest(
    products: seq<ProductRow>, t': seq<PredictionRow>,
    predict: ProductRow -> Result<PredictionResult, PredictError>, now: Timestamp, nextId: int)
    requires |products| > 0 && DistinctIds(products)
    requires ProcessAll(products[1..], t', predict, now, nextId + 1).Ok?
    ensures SameLatest(ProcessAll(products[1..], t', predict, now, nextId + 1).value, t', products[0].id)
  {
    OthersKeepLatest(products[1..], t', predict, now, nextId + 1, products[0].id);
  }

  /** After a successful pass over products with distinct ids (a primary key), each
      product has exactly one latest row: the one appended for it. */
  lemma {:induction false} ExactlyOneLatest(
    products: seq<ProductRow>, t: seq<PredictionRow>, predict: ProductRow -> Result<PredictionResult, PredictError>, now: Timestamp, nextId: int, k: nat)
    requires DistinctIds(products)
    requires ProcessAll(products, t, predict, now, nextId).Ok?
    requires k < |products|
    ensures OnlyLatest(ProcessAll(products, t, predict, now, nextId).value, products[k].id, |t| + k)
    decreases |products|
  {
    ProcessAllFirstStep(products, t, predict, now, nextId);
    var t' := Step(products[0], t, predict, now, nextId).value;
    var whole := ProcessAll(products, t, predict, now, nextId).value;
    assert whole == ProcessAll(products[1..], t', predict, now, nextId + 1).value;
    if k == 0 {
      FirstKeepsLatest(products, t', predict, now, nextId);
      OnlyLatestCarries(whole, t', products[0].id, |t|);
    } else {
      assert DistinctIds(products[1..]);
      ExactlyOneLatest(products[1..], t', predict, now, nextId + 1, k - 1);
      assert products[1..][k - 1] == products[k];
      assert |t'| + (k - 1) == |t| + k;
    }
  }

  lemma OnlyLatestCarries(a: seq<PredictionRow>, b: seq<PredictionRow>, pid: int, j: int)
    requires SameLatest(a, b, pid) && OnlyLatest(b, pid, j)
    ensures OnlyLatest(a, pid, j)
  {
  }

  /** A row marked latest that agrees with a fresh row apart from the flag is that row. */
  lemma LatestRowIsNew(a: PredictionRow, b: PredictionRow)
    requires SameExceptLatest(a, b) && a.isLatest && b.isLatest
    ensures a == b
  {
    assert a == a.(isLatest := false).(isLatest := true);
  }

  /** What a run leaves behind: the stored table, and whether it committed or the
      exception that ended it. */
  datatype RunOutcome = RunOutcome(stored: seq<PredictionRow>, result: Result<(), PredictError>)

  /** `run_batch_prediction_and_cache`: every product in order, one commit at the end.
      An exception skips the commit, so the stored table stays as it was. */
  function RunBatch(products: seq<ProductRow>, stored: seq<PredictionRow>, m: Models, now: Timestamp, nextId: int)
    : (o: RunOutcome)
    ensures o.result.Err? ==> o.stored == stored
    ensures o.result.Err? <==> exists k :: 0 <= k < |products| && PredictProduct(m, products[k]).Err?
    ensures o.result.Ok? ==> |o.stored| == |stored| + |products|
    ensures o.result.Ok? ==> forall i :: 0 <= i < |stored| ==> SameExceptLatest(o.stored[i], stored[i])
    ensures o.result.Ok? && DistinctIds(products) ==>
              forall k :: 0 <= k < |products| ==> OnlyLatest(o.stored, products[k].id, |stored| + k)
    ensures o.result.Ok? && DistinctIds(products) ==>
              forall k :: 0 <= k < |products| ==>
                PredictProduct(m, products[k]).Ok?
                && o.stored[|stored| + k] == NewRow(PredictProduct(m, products[k]).value, products[k].id, nextId + k, now)
  {
    var predict := p => PredictProduct(m, p);
    match ProcessAll(products, stored, predict, now, nextId)
    case Ok(t) =>
      assert DistinctIds(products) ==>
               forall k :: 0 <= k < |products| ==> OnlyLatest(t, products[k].id, |stored| + k) by {
        if DistinctIds(products) {
          forall k | 0 <= k < |products| ensures OnlyLatest(t, products[k].id, |stored| + k) {
            ExactlyOneLatest(products, stored, predict, now, nextId, k);
          }
        }
      }
      assert DistinctIds(products) ==>
               forall k :: 0 <= k < |products| ==>
                 PredictProduct(m, products[k]).Ok?
                 && t[|stored| + k] == NewRow(PredictProduct(m, products[k]).value, products[k].id, nextId + k, now) by {
        if DistinctIds(products) {
          forall k | 0 <= k < |products|
            ensures PredictProduct(m, products[k]).Ok?
            ensures t[|stored| + k] == NewRow(PredictProduct(m, products[k]).value, products[k].id, nextId + k, now)
          {
            assert predict(products[k]) == PredictProduct(m, products[k]);
            LatestRowIsNew(t[|stored| + k], NewRow(PredictProduct(m, products[k]).value, products[k].id, nextId + k, now));
          }
        }
      }
      RunOutcome(t, Ok(()))
    case Err(e) => RunOutcome(stored, Err(e))
  }
}
