/**
 * The product catalog of the point-of-sale hook: the application's `Product` record and its
 * translation to and from the columns of the `products` table (snake_case names).
 */
module Catalog {
  import opened Wrappers

  /** A catalog product. Prices are whole rupiah (IDR has no minor unit). */
  datatype Product = Product(
    id: string,
    name: string,
    costPrice: int,
    sellPrice: int,
    stock: int,
    barcode: Option<string>,
    category: Option<string>,
    isPhotocopy: bool)

  /** `Omit<Product, 'id'>`: what `addProduct` receives. */
  datatype NewProduct = NewProduct(
    name: string,
    costPrice: int,
    sellPrice: int,
    stock: int,
    barcode: Option<string>,
    category: Option<string>,
    isPhotocopy: bool)

  /** `Partial<Product>`: every field may be left undefined (`None`). */
  datatype ProductPatch = ProductPatch(
    id: Option<string>,
    name: Option<string>,
    costPrice: Option<int>,
    sellPrice: Option<int>,
    stock: Option<int>,
    barcode: Option<string>,
    category: Option<string>,
    isPhotocopy: Option<bool>)

  /** A column value as the storage backend holds it. */
  datatype Value = Text(text: string) | Number(number: int) | Bool(flag: bool) | Null

  /** A table row, or an insert/update payload: column name to value. */
  type Row = map<string, Value>

  /** The product columns that `updateProduct` may write. */
  const UpdatableColumns: set<string> :=
    {"name", "cost_price", "sell_price", "stock", "barcode", "category", "is_photocopy"}

  /** An optional text field: an undefined field is stored as NULL. */
  function OptionalText(o: Option<string>): (v: Value)
    ensures o.Some? <==> v.Text?
    ensures o.Some? ==> v == Text(o.value)
    ensures o.None? ==> v == Null
  {
    match o
    case Some(s) => Text(s)
    case None => Null
  }

  /** Reading back an optional text column: NULL is an absent field. */
  function TextOrNone(v: Value): (o: Option<string>)
    ensures o.Some? <==> v.Text?
    ensures v.Text? ==> o == Some(v.text)
  {
    if v.Text? then Some(v.text) else None
  }

  lemma {:induction false} OptionalTextRoundTrip(o: Option<string>)
    ensures TextOrNone(OptionalText(o)) == o
  {
    match o
    case Some(s) =>
    case None =>
  }

  /** The shape of a `products` row as the table's schema guarantees it. */
  predicate IsProductRow(row: Row) {
    && "id" in row && row["id"].Text?
    && "name" in row && row["name"].Text?
    && "cost_price" in row && row["cost_price"].Number?
    && "sell_price" in row && row["sell_price"].Number?
    && "stock" in row && row["stock"].Number?
    && "barcode" in row && (row["barcode"].Text? || row["barcode"].Null?)
    && "category" in row && (row["category"].Text? || row["category"].Null?)
    && "is_photocopy" in row && row["is_photocopy"].Bool?
  }

  /** The row-to-product mapping of `loadProducts`. */
  function FromRow(row: Row): (p: Product)
    requires IsProductRow(row)
    ensures p.id == row["id"].text
    ensures p.barcode.None? <==> row["barcode"] == Null
    ensures p.category.None? <==> row["category"] == Null
  {
    Product(
      row["id"].text,
      row["name"].text,
      row["cost_price"].number,
      row["sell_price"].number,
      row["stock"].number,
      TextOrNone(row["barcode"]),
      TextOrNone(row["category"]),
      row["is_photocopy"].flag)
  }

  /** The insert payload of `addProduct`: every product field under its column name, plus the owner. */
  function InsertRow(data: NewProduct, userId: string): (row: Row)
    ensures row.Keys == UpdatableColumns + {"user_id"}
    ensures "id" !in row
    ensures row["user_id"] == Text(userId)
  {
    map[
      "name" := Text(data.name),
      "cost_price" := Number(data.costPrice),
      "sell_price" := Number(data.sellPrice),
      "stock" := Number(data.stock),
      "barcode" := OptionalText(data.barcode),
      "category" := OptionalText(data.category),
      "is_photocopy" := Bool(data.isPhotocopy),
      "user_id" := Text(userId)]
  }

  /** The product a `NewProduct` becomes once the backend has given it an id. */
  function WithId(data: NewProduct, id: string): (p: Product)
    ensures p.id == id
  {
    Product(id, data.name, data.costPrice, data.sellPrice, data.stock, data.barcode, data.category, data.isPhotocopy)
  }

  /**
   * Round trip of the two field mappings: a row inserted by `addProduct`, stored under a
   * backend-assigned id, loads back by `loadProducts` as the product that was added.
   */
  lemma {:induction false} LoadAfterInsert(data: NewProduct, userId: string, id: string)
    ensures IsProductRow(InsertRow(data, userId)["id" := Text(id)])
    ensures FromRow(InsertRow(data, userId)["id" := Text(id)]) == WithId(data, id)
  {
    OptionalTextRoundTrip(data.barcode);
    OptionalTextRoundTrip(data.category);
  }

  /**
   * The update payload that `updateProduct` builds: the column of each field that is defined
   * in the partial, holding that field's value, and no other column.
   */
  function UpdateColumns(updates: ProductPatch): (data: Row)
    ensures data.Keys <= UpdatableColumns
    ensures "name" in data <==> updates.name.Some?
    ensures "cost_price" in data <==> updates.costPrice.Some?
    ensures "sell_price" in data <==> updates.sellPrice.Some?
    ensures "stock" in data <==> updates.stock.Some?
    ensures "barcode" in data <==> updates.barcode.Some?
    ensures "category" in data <==> updates.category.Some?
    ensures "is_photocopy" in data <==> updates.isPhotocopy.Some?
    ensures "name" in data ==> data["name"] == Text(updates.name.value)
    ensures "cost_price" in data ==> data["cost_price"] == Number(updates.costPrice.value)
    ensures "sell_price" in data ==> data["sell_price"] == Number(updates.sellPrice.value)
    ensures "stock" in data ==> data["stock"] == Number(updates.stock.value)
    ensures "barcode" in data ==> data["barcode"] == Text(updates.barcode.value)
    ensures "category" in data ==> data["category"] == Text(updates.category.value)
    ensures "is_photocopy" in data ==> data["is_photocopy"] == Bool(updates.isPhotocopy.value)
  {
    map column | column in UpdatableColumns && ColumnUpdate(updates, column).Some?
      :: ColumnUpdate(updates, column).value
  }

  /** The value a partial assigns to one column, when the field behind that column is defined. */
  function ColumnUpdate(updates: ProductPatch, column: string): Option<Value> {
    match column
    case "name" => if updates.name.Some? then Some(Text(updates.name.value)) else None
    case "cost_price" => if updates.costPrice.Some? then Some(Number(updates.costPrice.value)) else None
    case "sell_price" => if updates.sellPrice.Some? then Some(Number(updates.sellPrice.value)) else None
    case "stock" => if updates.stock.Some? then Some(Number(updates.stock.value)) else None
    case "barcode" => if updates.barcode.Some? then Some(Text(updates.barcode.value)) else None
    case "category" => if updates.category.Some? then Some(Text(updates.category.value)) else None
    case "is_photocopy" => if updates.isPhotocopy.Some? then Some(Bool(updates.isPhotocopy.value)) else None
    case _ => None
  }

  /** The order in which `updateProduct` considers the fields, by column name. */
  const ColumnOrder: seq<string> := ["name", "cost_price", "sell_price", "stock", "barcode", "category", "is_photocopy"]

  /** One step of building the payload: set the column when the field is defined. */
  function Put(data: Row, column: string, value: Option<Value>): Row {
    if value.Some? then data[column := value.value] else data
  }

  /** The payload after considering the first `n` fields in order. */
  function ColumnsUpTo(updates: ProductPatch, n: nat): Row
    requires n <= |ColumnOrder|
  {
    if n == 0 then map[]
    else Put(ColumnsUpTo(updates, n - 1), ColumnOrder[n - 1], ColumnUpdate(updates, ColumnOrder[n - 1]))
  }

  /** After the first `n` fields, the payload holds exactly their defined columns, with their values. */
  lemma {:induction false} ColumnsUpToSpec(updates: ProductPatch, n: nat)
    requires n <= |ColumnOrder|
    ensures forall column :: column in ColumnsUpTo(updates, n) <==>
      column in ColumnOrder[..n] && ColumnUpdate(updates, column).Some?
    ensures forall column :: column in ColumnsUpTo(updates, n) ==>
      ColumnsUpTo(updates, n)[column] == ColumnUpdate(updates, column).value
  {
    if n > 0 {
      ColumnsUpToSpec(updates, n - 1);
      assert ColumnOrder[..n] == ColumnOrder[..n - 1] + [ColumnOrder[n - 1]];
    }
  }

  /** Considering every field in order builds exactly the update payload. */
  lemma ColumnsUpToAll(updates: ProductPatch)
    ensures ColumnsUpTo(updates, |ColumnOrder|) == UpdateColumns(updates)
  {
    ColumnsUpToSpec(updates, |ColumnOrder|);
    assert ColumnOrder[..|ColumnOrder|] == ColumnOrder;
  }

  /** What a partial update means for a product: defined fields replace, the rest (and the id) stay. */
  function Patched(p: Product, updates: ProductPatch): (q: Product)
    ensures q.id == p.id
  {
    Product(
      p.id,
      updates.name.GetOr(p.name),
      updates.costPrice.GetOr(p.costPrice),
      updates.sellPrice.GetOr(p.sellPrice),
      updates.stock.GetOr(p.stock),
      if updates.barcode.Some? then updates.barcode else p.barcode,
      if updates.category.Some? then updates.category else p.category,
      updates.isPhotocopy.GetOr(p.isPhotocopy))
  }

  /**
   * Writing the update payload over a stored row (what the backend's UPDATE does) and loading
   * the row again gives the patched product: defined fields change, every other field is kept,
   * and an `id` in the partial is ignored.
   */
  lemma {:induction false} UpdateThenLoad(row: Row, updates: ProductPatch)
    requires IsProductRow(row)
    ensures IsProductRow(row + UpdateColumns(updates))
    ensures FromRow(row + UpdateColumns(updates)) == Patched(FromRow(row), updates)
  {
    var data := UpdateColumns(updates);
    var r := row + data;
    assert "id" !in data;
    var before, after := FromRow(row), FromRow(r);
    assert after.barcode == if updates.barcode.Some? then updates.barcode else before.barcode;
    assert after.category == if updates.category.Some? then updates.category else before.category;
  }

  /** The partial that a sale's stock decrement passes: only `stock` is defined. */
  function StockPatch(stock: int): (updates: ProductPatch)
    ensures updates.stock == Some(stock)
  {
    ProductPatch(None, None, None, None, Some(stock), None, None, None)
  }

  /** The payload of a stock-only update is the single `stock` column. */
  lemma StockPatchColumns(stock: int)
    ensures UpdateColumns(StockPatch(stock)) == map["stock" := Number(stock)]
  {
    assert UpdateColumns(StockPatch(stock)).Keys == {"stock"};
  }

  /** A stock-only update leaves every other field as loaded before. */
  lemma {:induction false} StockOnlyUpdate(row: Row, stock: int)
    requires IsProductRow(row)
    ensures IsProductRow(row + UpdateColumns(StockPatch(stock)))
    ensures FromRow(row + UpdateColumns(StockPatch(stock))) == FromRow(row).(stock := stock)
  {
    StockPatchColumns(stock);
    UpdateThenLoad(row, StockPatch(stock));
  }
}
