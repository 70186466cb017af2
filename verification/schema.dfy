/** The two ORM tables: products and their cached predictions (models.py). */
module Schema {
  import opened Values
  import opened Results

  /** The feature columns of `products`, in declaration order. */
  const ProductFeatureColumns: seq<string> := [
    "Historical_Sell_Through", "Spoilage_Risk_Score", "Cold_Chain_Energy_Use",
    "Sensor_Anomalies", "Markdown_History", "Transport_Emissions",
    "Recyclability_Score", "Overstock_Risk", "Stockout_Risk",
    "Embedded_Carbon_Footprint", "Recycled_Content_Pct", "Compostability_Score",
    "Take_Back_Eligible", "Footprint_Factor", "Holiday_Demand_Amplifier",
    "Upcoming_Local_Events", "Promo_Effectiveness", "Festival_Sales_Boost",
    "Days_Since_Last_Sale", "Average_Turnover_Time", "Redundancy_Index",
    "Shelf_Space_Efficiency", "Waste_Risk_Index", "Days_to_Expiry",
    "Forecasted_Demand", "Dead_Inventory_Flag"
  ]

  /** Every column of `products`, in declaration order. */
  const ProductColumns: seq<string> := ["id", "sku"] + ProductFeatureColumns

  /** Every column of `predictions`, in declaration order (`product` is a relationship, not a column). */
  const PredictionColumns: seq<string> := [
    "id", "product_id", "spoilage_risk", "days_to_expiry_pred",
    "forecasted_demand_pred", "dead_stock", "suggested_markdown_percent",
    "trigger_markdown", "sustainability_label", "created_at", "is_latest"
  ]

  /** The `String` columns of both tables; SQLite gives them TEXT affinity. */
  const TextColumns: set<string> := {"sku", "spoilage_risk", "sustainability_label"}

  /** The prediction columns an API response shows. */
  const PredictionBlockColumns: set<string> := {
    "spoilage_risk", "days_to_expiry_pred", "forecasted_demand_pred", "dead_stock",
    "suggested_markdown_percent", "trigger_markdown", "sustainability_label"
  }

  /** `created_at` as SQLAlchemy's `DateTime` stores it in SQLite: ISO text such as
      "2024-05-01 10:00:00.000000", never a number. */
  type Timestamp = string

  /** A `products` row; `features` maps each feature column to its (nullable) value. */
  datatype ProductRow = ProductRow(id: int, sku: string, features: map<string, Value>)

  /** A `predictions` row; nullable columns hold `VNull` when unset. */
  datatype PredictionRow = PredictionRow(
    id: int,
    productId: int,
    spoilageRisk: Value,
    daysToExpiryPred: Value,
    forecastedDemandPred: Value,
    deadStock: Value,
    suggestedMarkdownPercent: Value,
    triggerMarkdown: Value,
    sustainabilityLabel: Value,
    createdAt: Timestamp,
    isLatest: bool)

  /** A product row as loaded: exactly the declared feature columns are present. */
  predicate WellFormed(p: ProductRow) {
    p.features.Keys == set c | c in ProductFeatureColumns
  }

  /** `getattr(product, name)` for a column name. */
  function ProductColumn(p: ProductRow, name: string): Value {
    if name == "id" then VInt(p.id)
    else if name == "sku" then VStr(p.sku)
    else if name in p.features then p.features[name]
    else VNull
  }

  /** `getattr(prediction, name)` for a column name. */
  function PredictionColumn(q: PredictionRow, name: string): Value {
    match name
    case "id" => VInt(q.id)
    case "product_id" => VInt(q.productId)
    case "spoilage_risk" => q.spoilageRisk
    case "days_to_expiry_pred" => q.daysToExpiryPred
    case "forecasted_demand_pred" => q.forecastedDemandPred
    case "dead_stock" => q.deadStock
    case "suggested_markdown_percent" => q.suggestedMarkdownPercent
    case "trigger_markdown" => q.triggerMarkdown
    case "sustainability_label" => q.sustainabilityLabel
    case "created_at" => VStr(q.createdAt)
    case "is_latest" => VBool(q.isLatest)
    case _ => VNull
  }

  /** The `features` block of a response: every product column except `id` and `sku`. */
  function FeaturesBlock(p: ProductRow): (m: map<string, Value>)
    ensures m.Keys == set c | c in ProductFeatureColumns
    ensures "id" !in m && "sku" !in m
    ensures WellFormed(p) ==> m == p.features
  {
    map c | c in ProductColumns && c !in ["id", "sku"] :: ProductColumn(p, c)
  }

  /** The `prediction` block of a response: every prediction column except `id`,
      `product_id`, `is_latest` and `created_at`. */
  function PredictionBlock(q: PredictionRow): (m: map<string, Value>)
    ensures m.Keys == PredictionBlockColumns
    ensures "id" !in m && "product_id" !in m && "is_latest" !in m && "created_at" !in m
    ensures forall c :: c in m ==> m[c] == PredictionColumn(q, c)
  {
    var shown := set c | c in PredictionColumns && c !in ["id", "product_id", "is_latest", "created_at"];
    ShownPredictionColumns();
    map c | c in shown :: PredictionColumn(q, c)
  }

  lemma ShownPredictionColumns()
    ensures (set c | c in PredictionColumns && c !in ["id", "product_id", "is_latest", "created_at"])
            == PredictionBlockColumns
  {
  }

  /** Every feature column name starts with a capital letter, so none of them is
      private, `id`, `sku` or a relationship name. */
  lemma FeatureColumnsCapitalised()
    ensures forall c :: c in ProductFeatureColumns ==> |c| > 0 && 'A' <= c[0] <= 'Z'
  {
  }

  /** One element of a lookup response: the SKU, the features block and the
      prediction block (`None` stands for JSON null). */
  datatype Entry = Entry(sku: string, features: map<string, Value>, prediction: Option<map<string, Value>>)

  function EntryOf(p: ProductRow, q: PredictionRow): Entry {
    Entry(p.sku, FeaturesBlock(p), Some(PredictionBlock(q)))
  }
}
