/** The filtered multi-product lookup: query keys become column filters over the
    join of products with their latest predictions, then a page is cut (routes.py). */
module Filters {
  import opened Results
  import opened Values
  import opened Schema
  import opened QueryValues

  datatype Table = ProductTable | PredictionTable
  datatype Op = Eq | Gt | Lt

  /** One `query.filter(...)` the loop adds: `table.field op value`. */
  datatype Filter = Filter(table: Table, field: string, op: Op, value: Value)

  function Columns(t: Table): seq<string> {
    match t
    case ProductTable => ProductColumns
    case PredictionTable => PredictionColumns
  }

  /** The key suffix that selects an operator. */
  function Suffix(op: Op): string {
    match op
    case Eq => ""
    case Gt => "_gt"
    case Lt => "_lt"
  }

  /** A filter on column `base`, looked up on products first, then predictions. */
  function OnColumn(base: string, op: Op, value: Value): (f: Option<Filter>)
    ensures f.Some? <==> base in ProductColumns || base in PredictionColumns
    ensures f.Some? ==> f.value == Filter(if base in ProductColumns then ProductTable else PredictionTable, base, op, value)
  {
    if base in ProductColumns then Some(Filter(ProductTable, base, op, value))
    else if base in PredictionColumns then Some(Filter(PredictionTable, base, op, value))
    else None
  }

  /** Some column of either table has this name. */
  predicate IsColumn(name: string) {
    name in ProductColumns || name in PredictionColumns
  }

  /** The filter one query parameter adds, if any: an exact column name first
      (products before predictions), then a `_gt` suffix, then a `_lt` suffix. */
  function Classify(key: string, val: string): (f: Option<Filter>)
    ensures f.Some? ==> f.value.field in Columns(f.value.table)
    ensures f.Some? ==> key == f.value.field + Suffix(f.value.op)
    ensures f.Some? ==> f.value.value == ParseValue(val)
    ensures f.Some? && f.value.table == PredictionTable ==> f.value.field !in ProductColumns
    ensures f.Some? && f.value.op != Eq ==> !IsColumn(key)
    ensures f.None? <==> !IsColumn(key)
                         && !(EndsWith(key, "_gt") && IsColumn(key[..|key| - 3]))
                         && !(EndsWith(key, "_lt") && IsColumn(key[..|key| - 3]))
  {
    if key in ProductColumns then Some(Filter(ProductTable, key, Eq, ParseValue(val)))
    else if key in PredictionColumns then Some(Filter(PredictionTable, key, Eq, ParseValue(val)))
    else if EndsWith(key, "_gt") then
      assert key == key[..|key| - 3] + "_gt";
      OnColumn(key[..|key| - 3], Gt, ParseValue(val))
    else if EndsWith(key, "_lt") then
      assert key == key[..|key| - 3] + "_lt";
      OnColumn(key[..|key| - 3], Lt, ParseValue(val))
    else None
  }

  /** Some parameter of the list classifies into `f`. */
  predicate Produces(args: seq<(string, string)>, f: Filter) {
    exists i :: 0 <= i < |args| && Classify(args[i].0, args[i].1) == Some(f)
  }

  lemma ProducesCons(args: seq<(string, string)>, f: Filter)
    requires |args| > 0
    ensures Produces(args, f) <==> Classify(args[0].0, args[0].1) == Some(f) || Produces(args[1..], f)
  {
    if i :| 0 <= i < |args| && Classify(args[i].0, args[i].1) == Some(f) {
      if i > 0 {
        assert args[1..][i - 1] == args[i];
      }
    }
    if i :| 0 <= i < |args[1..]| && Classify(args[1..][i].0, args[1..][i].1) == Some(f) {
      assert args[i + 1] == args[1..][i];
    }
  }

  /** The filters for a list of (key, value) pairs, in list order. */
  function ClassifyAll(items: seq<(string, string)>): (fs: seq<Filter>)
    ensures |fs| <= |items|
    ensures forall f :: f in fs <==> Produces(items, f)
  {
    if |items| == 0 then []
    else
      var rest := ClassifyAll(items[1..]);
      var head := Classify(items[0].0, items[0].1);
      assert forall f :: Produces(items, f) <==> head == Some(f) || Produces(items[1..], f) by {
        forall f ensures Produces(items, f) <==> head == Some(f) || Produces(items[1..], f) {
          ProducesCons(items, f);
        }
      }
      match head
      case Some(f) => [f] + rest
      case None => rest
  }

  /** The first value of a query key, as `args.get` returns it. */
  function Get(args: seq<(string, string)>, key: string): (r: Option<string>)
    ensures r.Some? ==> exists i :: 0 <= i < |args| && args[i] == (key, r.value)
                                    && forall j :: 0 <= j < i ==> args[j].0 != key
    ensures r.None? ==> forall i :: 0 <= i < |args| ==> args[i].0 != key
  {
    if |args| == 0 then None
    else if args[0].0 == key then Some(args[0].1)
    else
      var r := Get(args[1..], key);
      assert r.Some? ==> exists i :: 0 <= i < |args| && args[i] == (key, r.value)
                                     && forall j :: 0 <= j < i ==> args[j].0 != key by {
        if r.Some? {
          var i :| 0 <= i < |args[1..]| && args[1..][i] == (key, r.value)
                   && forall j :: 0 <= j < i ==> args[1..][j].0 != key;
          assert args[i + 1] == args[1..][i];
          forall j | 0 <= j < i + 1
            ensures args[j].0 != key
          {
            if j > 0 {
              assert args[j] == args[1..][j - 1];
            }
          }
        }
      }
      r
  }

  /** The parameters whose key is not `key`, in order. */
  function Without(args: seq<(string, string)>, key: string): (r: seq<(string, string)>)
    ensures |r| <= |args|
    ensures Get(r, key).None?
    ensures forall k :: k != key ==> Get(r, k) == Get(args, k)
  {
    if |args| == 0 then []
    else
      var rest := Without(args[1..], key);
      if args[0].0 == key then rest
      else
        assert ([args[0]] + rest)[1..] == rest;
        [args[0]] + rest
  }

  /** `args.items()` on the query's multi-valued dictionary: each key once, in order of
      first appearance, paired with its first value. */
  function Items(args: seq<(string, string)>): (r: seq<(string, string)>)
    ensures |r| <= |args|
    ensures forall i :: 0 <= i < |r| ==> Get(args, r[i].0) == Some(r[i].1)
    ensures forall i, j :: 0 <= i < j < |r| ==> r[i].0 != r[j].0
    ensures forall key :: Get(args, key).Some? ==> (key, Get(args, key).value) in r
    decreases |args|
  {
    if |args| == 0 then []
    else
      var key := args[0].0;
      var others := Without(args[1..], key);
      var rest := Items(others);
      assert forall k :: k != key ==> Get(args, k) == Get(others, k);
      assert forall i :: 0 <= i < |rest| ==> Get(others, rest[i].0).Some?;
      [args[0]] + rest
  }

  /** Some key of the request, taken with its first value, classifies into `f`. */
  ghost predicate Requested(args: seq<(string, string)>, f: Filter) {
    exists key :: Get(args, key).Some? && Classify(key, Get(args, key).value) == Some(f)
  }

  /** The filters the loop over `args.items()` adds: one per distinct key, classified
      with that key's first value, in order of first appearance. */
  function BuildFilters(args: seq<(string, string)>): (fs: seq<Filter>)
    ensures |fs| <= |args|
    ensures forall f :: f in fs <==> Requested(args, f)
  {
    ItemsProduce(args);
    ClassifyAll(Items(args))
  }

  lemma ItemsProduce(args: seq<(string, string)>)
    ensures forall f :: Produces(Items(args), f) <==> Requested(args, f)
  {
    var items := Items(args);
    forall f
      ensures Produces(items, f) <==> Requested(args, f)
    {
      if Produces(items, f) {
        var i :| 0 <= i < |items| && Classify(items[i].0, items[i].1) == Some(f);
        assert Get(args, items[i].0) == Some(items[i].1);
      }
      if key :| Get(args, key).Some? && Classify(key, Get(args, key).value) == Some(f) {
        var i :| 0 <= i < |items| && items[i] == (key, Get(args, key).value);
        assert Classify(items[i].0, items[i].1) == Some(f);
      }
    }
  }

  /** Repeating a key keeps only its first value: `?id=1&id=2` filters on `id == 1` alone. */
  lemma RepeatedKeyFirstValue()
    ensures BuildFilters([("id", "1"), ("id", "2")]) == [Filter(ProductTable, "id", Eq, VInt(1))]
  {
    var args := [("id", "1"), ("id", "2")];
    assert Without(args[1..], "id") == [];
    assert Items(args) == [("id", "1")];
    ParseOne();
    SharedNameFiltersProducts("1");
  }

  /** A value's number as SQL compares it (booleans are stored as 0 and 1). */
  function Numeric(v: Value): Option<real> {
    match v
    case VInt(i) => Some(i as real)
    case VFloat(x) => Some(x)
    case VBool(b) => Some(if b then 1.0 else 0.0)
    case _ => None
  }

  /** Lexicographic order on text. */
  predicate TextBefore(a: string, b: string) {
    if |a| == 0 then |b| > 0
    else |b| > 0 && (a[0] < b[0] || (a[0] == b[0] && TextBefore(a[1..], b[1..])))
  }

  /** SQLite's rank of a value's storage class when values of different classes meet:
      NULL, then numbers (booleans are stored as 0 and 1), then text. */
  function StorageRank(v: Value): (k: int)
    ensures k == 0 <==> v.VNull?
    ensures k == 1 <==> Numeric(v).Some?
    ensures k == 2 <==> v.VStr?
  {
    match v
    case VNull => 0
    case VStr(_) => 2
    case _ => 1
  }

  /** The bound parameter as compared with a column: a TEXT column gives an integer
      (a boolean binds as 0 or 1) its decimal text. */
  function Bound(value: Value, textColumn: bool): (b: Value)
    ensures !textColumn ==> b == value
    ensures textColumn && value.VInt? ==> b == VStr(ShowInt(value.i))
    ensures textColumn && value.VBool? ==> b == VStr(if value.b then "1" else "0")
    ensures !value.VInt? && !value.VBool? ==> b == value
  {
    if !textColumn then value
    else
      match value
      case VInt(i) => VStr(ShowInt(i))
      case VBool(b) => VStr(if b then "1" else "0")
      case _ => value
  }

  /** `column op value` as SQLite evaluates it: NULL matches nothing; numbers compare
      with numbers and text with text; across storage classes every number sorts
      below every text. */
  predicate Compare(op: Op, column: Value, value: Value) {
    if column.VNull? || value.VNull? then false
    else if StorageRank(column) != StorageRank(value) then
      match op
      case Eq => false
      case Gt => StorageRank(column) > StorageRank(value)
      case Lt => StorageRank(column) < StorageRank(value)
    else if column.VStr? then
      match op
      case Eq => column.s == value.s
      case Gt => TextBefore(value.s, column.s)
      case Lt => TextBefore(column.s, value.s)
    else
      var a, b := Numeric(column).value, Numeric(value).value;
      match op
      case Eq => a == b
      case Gt => a > b
      case Lt => a < b
  }

  /** Text order is a strict total order: exactly one of before, equal, after. */
  lemma {:induction false} TextOrder(a: string, b: string)
    ensures TextBefore(a, b) || a == b || TextBefore(b, a)
    ensures !(TextBefore(a, b) && TextBefore(b, a))
    ensures TextBefore(a, b) || TextBefore(b, a) ==> a != b
    decreases |a|
  {
    if |a| > 0 && |b| > 0 {
      TextOrder(a[1..], b[1..]);
      assert a == [a[0]] + a[1..] && b == [b[0]] + b[1..];
      if a == b {
        assert a[1..] == b[1..];
      }
    }
  }

  /** Any two non-NULL values compare one way only: below, equal or above; and
      `a > b` is `b < a`. */
  lemma CompareTrichotomy(a: Value, b: Value)
    requires !a.VNull? && !b.VNull?
    ensures Compare(Gt, a, b) <==> Compare(Lt, b, a)
    ensures Compare(Eq, a, b) <==> Compare(Eq, b, a)
    ensures Compare(Lt, a, b) || Compare(Eq, a, b) || Compare(Gt, a, b)
    ensures !(Compare(Lt, a, b) && Compare(Eq, a, b))
    ensures !(Compare(Lt, a, b) && Compare(Gt, a, b))
    ensures !(Compare(Eq, a, b) && Compare(Gt, a, b))
  {
    if a.VStr? && b.VStr? {
      TextOrder(a.s, b.s);
    }
  }

  /** A TEXT column gives a bound integer its decimal text: `?sku=1000` finds the
      product whose SKU is the text "1000". */
  lemma NumericSkuMatchesText(n: int, x: Joined)
    requires x.0.sku == ShowInt(n)
    ensures Classify("sku", ShowInt(n)) == Some(Filter(ProductTable, "sku", Eq, VInt(n)))
    ensures Holds(Filter(ProductTable, "sku", Eq, VInt(n)), x)
  {
    ParseShowInt(n);
    assert ProductColumns[1] == "sku";
  }

  /** Every number sorts below every text: a text bound on a numeric column, such as
      `?Spoilage_Risk_Score_lt=abc`, keeps every row whose score is a number. */
  lemma NumberBelowText(x: Joined, t: string)
    requires Numeric(ProductColumn(x.0, "Spoilage_Risk_Score")).Some?
    ensures Holds(Filter(ProductTable, "Spoilage_Risk_Score", Lt, VStr(t)), x)
    ensures !Holds(Filter(ProductTable, "Spoilage_Risk_Score", Gt, VStr(t)), x)
  {
  }

  /** A joined (product, prediction) pair. */
  type Joined = (ProductRow, PredictionRow)

  predicate Holds(f: Filter, x: Joined) {
    match f.table
    case ProductTable => Compare(f.op, ProductColumn(x.0, f.field), Bound(f.value, f.field in TextColumns))
    case PredictionTable => Compare(f.op, PredictionColumn(x.1, f.field), Bound(f.value, f.field in TextColumns))
  }

  predicate HoldsAll(fs: seq<Filter>, x: Joined) {
    forall f :: f in fs ==> Holds(f, x)
  }

  /** The latest predictions of one product, paired with it, in table order. */
  function LatestOf(p: ProductRow, preds: seq<PredictionRow>): (r: seq<Joined>)
    ensures forall x :: x in r <==> x.0 == p && x.1 in preds && x.1.productId == p.id && x.1.isLatest
  {
    if |preds| == 0 then []
    else
      var rest := LatestOf(p, preds[1..]);
      assert forall q :: q in preds <==> q == preds[0] || q in preds[1..];
      if preds[0].productId == p.id && preds[0].isLatest then [(p, preds[0])] + rest else rest
  }

  /** `join(Prediction).filter(Prediction.is_latest == True)`, product by product. */
  function JoinLatest(products: seq<ProductRow>, preds: seq<PredictionRow>): (r: seq<Joined>)
    ensures forall x :: x in r <==> x.0 in products && x.1 in preds && x.1.productId == x.0.id && x.1.isLatest
  {
    if |products| == 0 then []
    else
      assert forall p :: p in products <==> p == products[0] || p in products[1..];
      LatestOf(products[0], preds) + JoinLatest(products[1..], preds)
  }

  /** The joined rows every filter accepts, in order. */
  function KeepMatching(rows: seq<Joined>, fs: seq<Filter>): (r: seq<Joined>)
    ensures |r| <= |rows|
    ensures forall x :: x in r <==> x in rows && HoldsAll(fs, x)
  {
    if |rows| == 0 then []
    else
      var rest := KeepMatching(rows[1..], fs);
      assert forall x :: x in rows <==> x == rows[0] || x in rows[1..];
      if HoldsAll(fs, rows[0]) then [rows[0]] + rest else rest
  }

  function Max(a: int, b: int): int { if a < b then b else a }
  function Min(a: int, b: int): int { if a < b then a else b }

  /** `LIMIT limit OFFSET offset`: a negative limit means no bound and a negative
      offset counts as zero. */
  function Page<T>(xs: seq<T>, limit: int, offset: int): (r: seq<T>)
    ensures forall x :: x in r ==> x in xs
    ensures 0 <= limit ==> |r| == Min(limit, Max(0, |xs| - Max(0, offset)))
    ensures limit < 0 ==> |r| == Max(0, |xs| - Max(0, offset))
    ensures forall i :: 0 <= i < |r| ==> r[i] == xs[Max(0, offset) + i]
  {
    var start := Min(Max(0, offset), |xs|);
    var stop := if limit < 0 then |xs| else Min(start + limit, |xs|);
    xs[start..stop]
  }

  /** `int(args.get(key, default))`: the ValueError of `int()` is not caught. */
  function IntArg(args: seq<(string, string)>, key: string, default: int): (r: Result<int, string>)
    ensures Get(args, key).None? ==> r == Ok(default)
    ensures Get(args, key).Some? ==> (r.Ok? <==> IsIntLiteral(Get(args, key).value))
    ensures Get(args, key).Some? && r.Ok? ==> ParseValue(Get(args, key).value) == VInt(r.value)
  {
    match Get(args, key)
    case None => Ok(default)
    case Some(v) =>
      if IsIntLiteral(v) then Ok(IntValue(v))
      else Err("invalid literal for int() with base 10: '" + v + "'")
  }

  /** SQLAlchemy builds `column > True` (and `<`) by refusing it: only `=` and `!=`
      may meet `True` or `False`, so the loop raises when it adds such a filter. */
  predicate OperatorRejected(f: Filter) {
    f.op != Eq && f.value.VBool?
  }

  const BoolOperatorError: string :=
    "Only '=', '!=', 'is_()', 'is_not()', 'is_distinct_from()', 'is_not_distinct_from()' operators can be used with None/True/False"

  /** The integers SQLite's driver can bind: signed 64-bit. */
  predicate Int64(i: int) {
    -0x8000_0000_0000_0000 <= i < 0x8000_0000_0000_0000
  }

  /** A bound integer the driver cannot convert to an SQLite INTEGER. */
  predicate Overflows(f: Filter) {
    f.value.VInt? && !Int64(f.value.i)
  }

  const OverflowError: string := "Python int too large to convert to SQLite INTEGER"

  /** A product joined with one of its predictions marked latest. */
  predicate LatestPair(products: seq<ProductRow>, preds: seq<PredictionRow>, x: Joined) {
    x.0 in products && x.1 in preds && x.1.productId == x.0.id && x.1.isLatest
  }

  /** The query gets as far as executing: every filter could be built and `limit` and
      `offset` are integer literals. */
  predicate QueryRuns(args: seq<(string, string)>) {
    && (forall f :: f in BuildFilters(args) ==> !OperatorRejected(f))
    && IntArg(args, "limit", 100).Ok? && IntArg(args, "offset", 0).Ok?
  }

  /** Every parameter the executed query binds can be bound: no integer outside 64 bits,
      `limit` and `offset` included. A value compared with a column of another type
      (a number or a string against `created_at`) is bound as its own type. */
  predicate Binds(args: seq<(string, string)>) {
    && (forall f :: f in BuildFilters(args) ==> !Overflows(f))
    && (IntArg(args, "limit", 100).Ok? ==> Int64(IntArg(args, "limit", 100).value))
    && (IntArg(args, "offset", 0).Ok? ==> Int64(IntArg(args, "offset", 0).value))
  }

  /** The rows `get_filtered_products` returns, before they are rendered, or the
      exception it raises. */
  function FilteredRows(products: seq<ProductRow>, preds: seq<PredictionRow>, args: seq<(string, string)>)
    : (r: Result<seq<Joined>, string>)
    ensures r.Ok? ==> forall x :: x in r.value ==> LatestPair(products, preds, x) && HoldsAll(BuildFilters(args), x)
    ensures r.Ok? && Get(args, "limit").None? ==> |r.value| <= 100
    ensures r.Ok? ==> IntArg(args, "limit", 100).Ok? && IntArg(args, "offset", 0).Ok?
    ensures r.Ok? <==> QueryRuns(args) && Binds(args)
  {
    var filters := BuildFilters(args);
    if exists f :: f in filters && OperatorRejected(f) then Err(BoolOperatorError)
    else
      var limit :- IntArg(args, "limit", 100);
      var offset :- IntArg(args, "offset", 0);
      if !Binds(args) then Err(OverflowError)
      else Ok(Page(KeepMatching(JoinLatest(products, preds), filters), limit, offset))
  }

  /** Which exception a failing query raises, in the order the handler meets them:
      building a `>`/`<` filter against a boolean, then `int()` of `limit` and of
      `offset`, then binding a wide integer. */
  lemma FilteredRowsError(products: seq<ProductRow>, preds: seq<PredictionRow>, args: seq<(string, string)>)
    ensures (exists f :: f in BuildFilters(args) && OperatorRejected(f)) ==>
              FilteredRows(products, preds, args) == Err(BoolOperatorError)
    ensures (forall f :: f in BuildFilters(args) ==> !OperatorRejected(f)) && IntArg(args, "limit", 100).Err? ==>
              FilteredRows(products, preds, args) == Err(IntArg(args, "limit", 100).error)
    ensures (forall f :: f in BuildFilters(args) ==> !OperatorRejected(f)) && IntArg(args, "limit", 100).Ok?
            && IntArg(args, "offset", 0).Err? ==>
              FilteredRows(products, preds, args) == Err(IntArg(args, "offset", 0).error)
    ensures QueryRuns(args) && !Binds(args) ==>
              FilteredRows(products, preds, args) == Err(OverflowError)
  {
  }

  /** Filtering distributes over concatenation, so it keeps the rows' order. */
  lemma {:induction false} KeepMatchingAppend(a: seq<Joined>, b: seq<Joined>, fs: seq<Filter>)
    ensures KeepMatching(a + b, fs) == KeepMatching(a, fs) + KeepMatching(b, fs)
  {
    if |a| == 0 {
      assert a + b == b;
    } else {
      assert (a + b)[0] == a[0];
      assert (a + b)[1..] == a[1..] + b;
      KeepMatchingAppend(a[1..], b, fs);
    }
  }

  lemma KeepMatchingSingle(x: Joined, fs: seq<Filter>)
    ensures KeepMatching([x], fs) == if HoldsAll(fs, x) then [x] else []
  {
  }

  /** `rows` is the window `[offset, offset + limit)` of `xs`: it skips `offset` items
      (none when negative) and holds the next `limit` of them (all when negative). */
  predicate Window<T(==)>(rows: seq<T>, xs: seq<T>, limit: int, offset: int) {
    && |rows| == (if limit < 0 then Max(0, |xs| - Max(0, offset)) else Min(limit, Max(0, |xs| - Max(0, offset))))
    && forall i :: 0 <= i < |rows| ==> Max(0, offset) + i < |xs| && rows[i] == xs[Max(0, offset) + i]
  }

  /** The page is the window `[offset, offset + limit)` of the matching pairs in join
      order; when the offset skips none and the limit cuts none, every latest pair that
      passes every filter is returned. */
  lemma FilteredRowsWindow(products: seq<ProductRow>, preds: seq<PredictionRow>, args: seq<(string, string)>)
    requires FilteredRows(products, preds, args).Ok?
    ensures IntArg(args, "limit", 100).Ok? && IntArg(args, "offset", 0).Ok?
    ensures Window(FilteredRows(products, preds, args).value,
                   KeepMatching(JoinLatest(products, preds), BuildFilters(args)),
                   IntArg(args, "limit", 100).value, IntArg(args, "offset", 0).value)
    ensures IntArg(args, "offset", 0).value <= 0
            && (IntArg(args, "limit", 100).value < 0
                || |KeepMatching(JoinLatest(products, preds), BuildFilters(args))| <= IntArg(args, "limit", 100).value)
            ==> forall x :: x in FilteredRows(products, preds, args).value
                  <==> LatestPair(products, preds, x) && HoldsAll(BuildFilters(args), x)
  {
    FilteredRowsPage(products, preds, args);
    var matching := KeepMatching(JoinLatest(products, preds), BuildFilters(args));
    var limit, offset := IntArg(args, "limit", 100).value, IntArg(args, "offset", 0).value;
    var rows := FilteredRows(products, preds, args).value;
    PageWindow(matching, limit, offset, rows);
    if offset <= 0 && (limit < 0 || |matching| <= limit) {
      assert rows == matching;
    }
  }

  /** What a window of a sequence holds. */
  lemma PageWindow<T>(xs: seq<T>, limit: int, offset: int, rows: seq<T>)
    requires rows == Page(xs, limit, offset)
    ensures Window(rows, xs, limit, offset)
    ensures offset <= 0 && (limit < 0 || |xs| <= limit) ==> rows == xs
  {
    if offset <= 0 && (limit < 0 || |xs| <= limit) {
      WholePage(xs, limit, offset);
    }
  }

  lemma FilteredRowsPage(products: seq<ProductRow>, preds: seq<PredictionRow>, args: seq<(string, string)>)
    requires FilteredRows(products, preds, args).Ok?
    ensures IntArg(args, "limit", 100).Ok? && IntArg(args, "offset", 0).Ok?
    ensures FilteredRows(products, preds, args).value
            == Page(KeepMatching(JoinLatest(products, preds), BuildFilters(args)),
                    IntArg(args, "limit", 100).value, IntArg(args, "offset", 0).value)
  {
    var fs := BuildFilters(args);
    assert QueryRuns(args) && Binds(args);
    assert !(exists f :: f in fs && OperatorRejected(f));
    assert !(exists f :: f in fs && Overflows(f));
  }

  /** A window that skips nothing and cuts nothing is the whole sequence. */
  lemma WholePage<T>(xs: seq<T>, limit: int, offset: int)
    requires offset <= 0 && (limit < 0 || |xs| <= limit)
    ensures Page(xs, limit, offset) == xs
  {
  }

  const CreatedAtArgs: seq<(string, string)> := [("created_at_gt", "2024")]

  const CreatedAtGt: Filter := Filter(PredictionTable, "created_at", Gt, ParseValue("2024"))

  lemma CreatedAtColumn()
    ensures CreatedAtGt.field in Columns(CreatedAtGt.table)
    ensures CreatedAtGt.field !in ProductColumns
  {
    assert PredictionColumns[9] == "created_at";
    assert "created_at" !in ProductFeatureColumns;
  }

  lemma CreatedAtKey()
    ensures Classify("created_at_gt", "2024") == Some(CreatedAtGt)
  {
    CreatedAtColumn();
    assert CreatedAtGt.field + Suffix(CreatedAtGt.op) == "created_at_gt";
    ClassifySpelledKey(CreatedAtGt, "2024");
  }

  lemma CreatedAtFilter()
    ensures BuildFilters(CreatedAtArgs) == [CreatedAtGt]
  {
    assert Without(CreatedAtArgs[1..], "created_at_gt") == [];
    assert Items(CreatedAtArgs) == CreatedAtArgs;
    CreatedAtKey();
    assert ClassifyAll(CreatedAtArgs[1..]) == [];
  }

  /** `?created_at_gt=2024` binds 2024 as an integer; every stored timestamp is text,
      which SQLite sorts above every number, so the query keeps every latest pair. */
  lemma CreatedAtAfterNumber(products: seq<ProductRow>, preds: seq<PredictionRow>)
    ensures FilteredRows(products, preds, CreatedAtArgs) == Ok(Page(JoinLatest(products, preds), 100, 0))
  {
    CreatedAtFilter();
    CreatedAtValue();
    assert Get(CreatedAtArgs, "limit") == None && Get(CreatedAtArgs, "offset") == None;
    assert IntArg(CreatedAtArgs, "limit", 100) == Ok(100) && IntArg(CreatedAtArgs, "offset", 0) == Ok(0);
    forall f | f in BuildFilters(CreatedAtArgs)
      ensures !OperatorRejected(f) && !Overflows(f)
    {
      assert f == CreatedAtGt;
    }
    assert Int64(100) && Int64(0);
    assert FilteredRows(products, preds, CreatedAtArgs).Ok?;
    FilteredRowsPage(products, preds, CreatedAtArgs);
    var joined := JoinLatest(products, preds);
    forall x | x in joined
      ensures HoldsAll([CreatedAtGt], x)
    {
      CreatedAtGtHolds(x);
    }
    KeepMatchingAll(joined, [CreatedAtGt]);
  }

  /** Any stored timestamp lies after the number 2024. */
  lemma CreatedAtGtHolds(x: Joined)
    ensures HoldsAll([CreatedAtGt], x)
  {
    CreatedAtValue();
    assert "created_at" !in TextColumns;
    assert Holds(CreatedAtGt, x);
  }

  lemma CreatedAtValue()
    ensures CreatedAtGt.value == VInt(2024)
  {
    ParseShowInt(2024);
    assert ShowInt(2024) == "2024";
  }

  /** Rows that all pass the filters are all kept. */
  lemma {:induction false} KeepMatchingAll(rows: seq<Joined>, fs: seq<Filter>)
    requires forall x :: x in rows ==> HoldsAll(fs, x)
    ensures KeepMatching(rows, fs) == rows
  {
    if |rows| > 0 {
      assert rows[0] in rows;
      assert forall x :: x in rows[1..] ==> x in rows;
      KeepMatchingAll(rows[1..], fs);
      assert [rows[0]] + rows[1..] == rows;
    }
  }

  /** A query of one parameter builds exactly the filter its key classifies into. */
  lemma SingleParameter(key: string, val: string)
    ensures BuildFilters([(key, val)]) == if Classify(key, val).Some? then [Classify(key, val).value] else []
  {
    var args := [(key, val)];
    assert Without(args[1..], key) == [];
    assert Items(args) == args;
    assert ClassifyAll(args[1..]) == [];
  }

  /** `?<column>_gt=true` (or `_lt`): SQLAlchemy refuses to build the comparison, so
      the handler raises. */
  lemma BoolThresholdFails(products: seq<ProductRow>, preds: seq<PredictionRow>, f: Filter, val: string)
    requires f.field in Columns(f.table)
    requires f.table == PredictionTable ==> f.field !in ProductColumns
    requires f.op != Eq && ParseValue(val).VBool?
    ensures FilteredRows(products, preds, [(f.field + Suffix(f.op), val)]) == Err(BoolOperatorError)
  {
    ClassifySpelledKey(f, val);
    SingleParameter(f.field + Suffix(f.op), val);
    assert OperatorRejected(f.(value := ParseValue(val)));
  }

  /** `?Spoilage_Risk_Score_gt=true` is a server error. */
  lemma ScoreAboveTrueFails(products: seq<ProductRow>, preds: seq<PredictionRow>)
    ensures FilteredRows(products, preds, [("Spoilage_Risk_Score_gt", "true")]) == Err(BoolOperatorError)
  {
    ParseTrue();
    SpoilageScoreColumn();
    ThresholdSpelling();
    BoolThresholdFails(products, preds, ThresholdFilter, "true");
  }

  const CreatedAtTrue: Filter := Filter(PredictionTable, "created_at", Eq, VBool(true))

  lemma CreatedAtTrueFilter()
    ensures BuildFilters([("created_at", "true")]) == [CreatedAtTrue]
  {
    ParseTrue();
    CreatedAtColumn();
    assert CreatedAtTrue.field + Suffix(CreatedAtTrue.op) == "created_at";
    ClassifySpelledKey(CreatedAtTrue, "true");
    SingleParameter("created_at", "true");
  }

  /** No stored timestamp, which is text, equals the number 1. */
  lemma CreatedAtTrueHoldsNowhere(x: Joined)
    ensures !HoldsAll([CreatedAtTrue], x)
  {
    assert CreatedAtTrue in [CreatedAtTrue];
    assert !Holds(CreatedAtTrue, x);
  }

  /** `?created_at=true` compares the column with the literal 1 and binds nothing, so
      the query runs and finds no rows. */
  lemma CreatedAtTrueMatchesNothing(products: seq<ProductRow>, preds: seq<PredictionRow>)
    ensures FilteredRows(products, preds, [("created_at", "true")]) == Ok([])
  {
    var args := [("created_at", "true")];
    CreatedAtTrueFilter();
    assert Get(args, "limit") == None && Get(args, "offset") == None;
    assert IntArg(args, "limit", 100) == Ok(100) && IntArg(args, "offset", 0) == Ok(0);
    forall f | f in BuildFilters(args)
      ensures !OperatorRejected(f) && !Overflows(f)
    {
      assert f == CreatedAtTrue;
    }
    assert Int64(100) && Int64(0);
    assert FilteredRows(products, preds, args).Ok?;
    FilteredRowsPage(products, preds, args);
    var kept := KeepMatching(JoinLatest(products, preds), [CreatedAtTrue]);
    forall x | x in kept
      ensures HoldsAll([CreatedAtTrue], x)
    {
    }
    if |kept| > 0 {
      CreatedAtTrueHoldsNowhere(kept[0]);
    }
  }

  /** `?id=<n>` with `n` outside 64 bits: the driver cannot bind it, a server error. */
  lemma WideIdFails(products: seq<ProductRow>, preds: seq<PredictionRow>, n: int)
    requires !Int64(n)
    ensures FilteredRows(products, preds, [("id", ShowInt(n))]) == Err(OverflowError)
  {
    var args := [("id", ShowInt(n))];
    var f := Filter(ProductTable, "id", Eq, VInt(n));
    ParseShowInt(n);
    SharedNameFiltersProducts(ShowInt(n));
    SingleParameter("id", ShowInt(n));
    assert Get(args, "limit") == None && Get(args, "offset") == None;
    assert IntArg(args, "limit", 100) == Ok(100) && IntArg(args, "offset", 0) == Ok(0);
    assert !OperatorRejected(f) && Overflows(f);
  }

  /** `?limit=<n>` with `n` outside 64 bits: `int()` accepts it, the driver does not. */
  lemma WideLimitFails(products: seq<ProductRow>, preds: seq<PredictionRow>, n: int)
    requires !Int64(n)
    ensures FilteredRows(products, preds, [("limit", ShowInt(n))]) == Err(OverflowError)
  {
    var args := [("limit", ShowInt(n))];
    ParseShowInt(n);
    PaginationKeysIgnored(ShowInt(n));
    SingleParameter("limit", ShowInt(n));
    assert Get(args, "limit") == Some(ShowInt(n)) && Get(args, "offset") == None;
    assert IntArg(args, "limit", 100) == Ok(n) && IntArg(args, "offset", 0) == Ok(0);
  }

  /** No column name ends in an operator suffix, so a suffixed key never shadows a column. */
  lemma SuffixedKeyIsNoColumn(key: string)
    requires EndsWith(key, "_gt") || EndsWith(key, "_lt")
    ensures !IsColumn(key)
  {
    if key in ProductFeatureColumns {
      FeatureColumnUnsuffixed(key);
    } else if key in PredictionColumns {
      PredictionColumnUnsuffixed(key);
    }
  }

  lemma FeatureColumnUnsuffixed(c: string)
    requires c in ProductFeatureColumns
    ensures !EndsWith(c, "_gt") && !EndsWith(c, "_lt")
  {
    if EndsWith(c, "_gt") || EndsWith(c, "_lt") {
      SuffixEnding(c);
      assert false;
    }
  }

  /** The last three characters of a suffixed key. */
  lemma SuffixEnding(c: string)
    requires EndsWith(c, "_gt") || EndsWith(c, "_lt")
    ensures |c| >= 3 && c[|c| - 3] == '_' && c[|c| - 1] == 't' && (c[|c| - 2] == 'g' || c[|c| - 2] == 'l')
  {
    var tail := c[|c| - 3..];
    assert tail == "_gt" || tail == "_lt";
    assert tail[0] == c[|c| - 3] && tail[1] == c[|c| - 2] && tail[2] == c[|c| - 1];
  }

  lemma PredictionColumnUnsuffixed(c: string)
    requires c in PredictionColumns
    ensures !EndsWith(c, "_gt") && !EndsWith(c, "_lt")
  {
  }

  /** Classification inverts key spelling: the key written for a filter on a column
      that no product column shadows is classified back into that filter. */
  lemma ClassifySpelledKey(f: Filter, val: string)
    requires f.field in Columns(f.table)
    requires f.table == PredictionTable ==> f.field !in ProductColumns
    ensures Classify(f.field + Suffix(f.op), val) == Some(f.(value := ParseValue(val)))
  {
    var key := f.field + Suffix(f.op);
    if f.op != Eq {
      assert key[..|key| - 3] == f.field;
      assert EndsWith(key, Suffix(f.op));
      SuffixedKeyIsNoColumn(key);
    } else {
      assert key == f.field;
    }
  }

  /** A key naming a column of both tables, such as `id`, filters the product table. */
  lemma SharedNameFiltersProducts(val: string)
    ensures Classify("id", val) == Some(Filter(ProductTable, "id", Eq, ParseValue(val)))
  {
  }

  /** The pagination keys add no filter. */
  lemma PaginationKeysIgnored(val: string)
    ensures Classify("limit", val).None?
    ensures Classify("offset", val).None?
  {
    LimitIsNoColumn();
    OffsetIsNoColumn();
  }

  lemma LimitIsNoColumn()
    ensures !IsColumn("limit")
  {
  }

  lemma OffsetIsNoColumn()
    ensures !IsColumn("offset")
  {
  }

  const ThresholdArgs: seq<(string, string)> := [("Spoilage_Risk_Score_gt", "0.5"), ("limit", "10")]
  const ThresholdFilter: Filter := Filter(ProductTable, "Spoilage_Risk_Score", Gt, VFloat(1.0 / 2.0))

  lemma ThresholdKey()
    ensures Classify("Spoilage_Risk_Score_gt", "0.5") == Some(ThresholdFilter)
  {
    ParseHalf();
    SpoilageScoreColumn();
    ThresholdSpelling();
    ClassifySpelledKey(ThresholdFilter, "0.5");
  }

  lemma SpoilageScoreColumn()
    ensures ThresholdFilter.field in Columns(ThresholdFilter.table)
  {
    assert ProductColumns[3] == "Spoilage_Risk_Score";
  }

  lemma ThresholdSpelling()
    ensures ThresholdFilter.field + Suffix(ThresholdFilter.op) == "Spoilage_Risk_Score_gt"
  {
  }

  lemma ThresholdFilters()
    ensures BuildFilters(ThresholdArgs) == [ThresholdFilter]
  {
    ThresholdKey();
    PaginationKeysIgnored("10");
    var rest := ThresholdArgs[1..];
    assert BuildFilters(rest[1..]) == [];
    assert BuildFilters(rest) == [];
  }

  lemma ThresholdPaging()
    ensures IntArg(ThresholdArgs, "limit", 100) == Ok(10)
    ensures IntArg(ThresholdArgs, "offset", 0) == Ok(0)
  {
    ParseTen();
    assert Get(ThresholdArgs, "limit") == Some("10");
    assert Get(ThresholdArgs, "offset") == None;
  }

  lemma ThresholdRuns(products: seq<ProductRow>, preds: seq<PredictionRow>)
    ensures FilteredRows(products, preds, ThresholdArgs).Ok?
  {
    ThresholdFilters();
    ThresholdPaging();
    forall f | f in BuildFilters(ThresholdArgs)
      ensures !OperatorRejected(f) && !Overflows(f)
    {
      assert f == ThresholdFilter;
    }
    assert Int64(10) && Int64(0);
  }

  /** `?Spoilage_Risk_Score_gt=0.5&limit=10` returns at most ten latest pairs, each with
      a spoilage score above one half. */
  lemma ThresholdQuery(products: seq<ProductRow>, preds: seq<PredictionRow>)
    ensures var r := FilteredRows(products, preds, ThresholdArgs);
            && r.Ok?
            && |r.value| <= 10
            && forall x :: x in r.value ==>
                 x.1.isLatest && Compare(Gt, ProductColumn(x.0, "Spoilage_Risk_Score"), VFloat(1.0 / 2.0))
  {
    ThresholdRuns(products, preds);
    ThresholdFilters();
    ThresholdPaging();
    FilteredRowsPage(products, preds, ThresholdArgs);
    var kept := KeepMatching(JoinLatest(products, preds), [ThresholdFilter]);
    var r := FilteredRows(products, preds, ThresholdArgs).value;
    assert r == Page(kept, 10, 0);
    forall x | x in r
      ensures x.1.isLatest && Compare(Gt, ProductColumn(x.0, "Spoilage_Risk_Score"), VFloat(1.0 / 2.0))
    {
      assert x in kept;
      assert HoldsAll([ThresholdFilter], x);
      assert Holds(ThresholdFilter, x);
    }
  }
}
