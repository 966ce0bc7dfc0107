/**
  The `Product` record of the catalog: the guarded stock decrement
  `reduce_stock`, the SKU that `save` assigns the first time, and the
  `"name (SKU: sku)"` label. Prices are integer cents; the storage layer
  is reduced to the identifier it assigns on first insert and a count of
  writes.
 */
module Products {
  import opened Wrappers
  import Text

  /** The `ValueError` that `reduce_stock` raises. */
  datatype ValueError = ValueError(message: string)

  const QuantityNotPositive := "Quantity must be greater than zero."

  /** `self.sku` used as a condition: `None` and `""` are both falsy. */
  predicate HasSku(sku: Option<string>) {
    sku.Some? && sku.value != ""
  }

  /** `self.id or ''` rendered into a string: empty for `None` and for `0`. */
  function IdSegment(id: Option<int>): (r: string)
    ensures r == "" <==> (id == None || id == Some(0))
  {
    if id.None? || id.value == 0 then "" else Text.IntToString(id.value)
  }

  /** `self.name[:3]`: the whole name when it is shorter than three characters. */
  function NamePrefix(name: string): (r: string)
    ensures |r| == if |name| < 3 then |name| else 3
    ensures name == r + name[|r|..]
  {
    if |name| < 3 then name else name[..3]
  }

  /** The SKU `save` derives: `"SKU-"`, the upper-cased name prefix, `"-"`, then the id (if any). */
  function GenerateSku(name: string, id: Option<int>): (sku: string)
    ensures |sku| == 5 + |NamePrefix(name)| + |IdSegment(id)|
    ensures sku[..4] == "SKU-"
    ensures sku[4..4 + |NamePrefix(name)|] == Text.Upper(NamePrefix(name))
    ensures sku[4 + |NamePrefix(name)|] == '-'
    ensures sku[5 + |NamePrefix(name)|..] == IdSegment(id)
    ensures HasSku(Some(sku))
  {
    "SKU-" + Text.Upper(NamePrefix(name)) + "-" + IdSegment(id)
  }

  /** "Widget" gets a SKU that begins `SKU-WID-`, whatever its id. */
  lemma WidgetSku(id: Option<int>)
    ensures GenerateSku("Widget", id)[..8] == "SKU-WID-"
  {
    assert NamePrefix("Widget") == "Wid";
    assert Text.Upper("Wid") == "WID";
  }

  /** For one name, the generated SKU determines the id: distinct non-zero ids give distinct SKUs. */
  lemma SkuDeterminesId(name: string, a: int, b: int)
    requires a != 0 && b != 0
    requires GenerateSku(name, Some(a)) == GenerateSku(name, Some(b))
    ensures a == b
  {
    var k := 5 + |NamePrefix(name)|;
    assert Text.IntToString(a) == GenerateSku(name, Some(a))[k..];
    assert Text.IntToString(b) == GenerateSku(name, Some(b))[k..];
    Text.IntToStringInjective(a, b);
  }

  /**
    Before the first insert there is no id, so the SKU ends in a bare `-`,
    and two names with the same upper-cased prefix get the same SKU.
   */
  lemma SkuBeforeInsertIgnoresId(name1: string, name2: string)
    requires Text.Upper(NamePrefix(name1)) == Text.Upper(NamePrefix(name2))
    ensures GenerateSku(name1, None) == GenerateSku(name2, None)
    ensures GenerateSku(name1, None)[|GenerateSku(name1, None)| - 1] == '-'
  {
  }

  /** What `reduce_stock(quantity)` returns, or the `ValueError` it raises, given the stock on hand. */
  function ReduceResult(stock: int, quantity: int): (r: Result<bool, ValueError>)
    ensures r.Err? <==> quantity <= 0
    ensures r.Err? ==> r.error == ValueError(QuantityNotPositive)
    ensures r == Ok(true) <==> 0 < quantity <= stock
    ensures r == Ok(false) <==> 0 < quantity && stock < quantity
  {
    if quantity <= 0 then Err(ValueError(QuantityNotPositive)) else Ok(stock >= quantity)
  }

  /** The stock left after `reduce_stock(quantity)`. */
  function StockAfter(stock: int, quantity: int): (s: int)
    ensures ReduceResult(stock, quantity) == Ok(true) ==> s == stock - quantity
    ensures ReduceResult(stock, quantity) != Ok(true) ==> s == stock
    ensures stock >= 0 ==> 0 <= s <= stock
    ensures quantity == stock > 0 ==> s == 0
  {
    if 0 < quantity <= stock then stock - quantity else stock
  }

  /** The stock after a series of `reduce_stock` calls, one quantity per call. */
  function StockAfterAll(stock: int, quantities: seq<int>): int
  {
    if quantities == [] then stock
    else StockAfterAll(StockAfter(stock, quantities[0]), quantities[1..])
  }

  /** The sum of the quantities that a series of calls accepted. */
  function AcceptedTotal(stock: int, quantities: seq<int>): int
  {
    if quantities == [] then 0
    else
      var q := quantities[0];
      (if ReduceResult(stock, q) == Ok(true) then q else 0)
        + AcceptedTotal(StockAfter(stock, q), quantities[1..])
  }

  /**
    No series of calls drives a non-negative stock below zero, and the stock
    falls by exactly the quantities the calls accepted.
   */
  lemma {:induction false} StockNeverNegative(stock: int, quantities: seq<int>)
    requires stock >= 0
    ensures 0 <= StockAfterAll(stock, quantities) <= stock
    ensures StockAfterAll(stock, quantities) == stock - AcceptedTotal(stock, quantities)
  {
    if quantities != [] {
      StockNeverNegative(StockAfter(stock, quantities[0]), quantities[1..]);
    }
  }

  class Product {
    /** `None` until the storage layer inserts the record. */
    var id: Option<int>
    var sku: Option<string>
    var name: string
    /** In cents: `DecimalField(max_digits=10, decimal_places=2)`. */
    var price: int
    var categoryId: int
    var stockQuantity: int
    /** How many times the record has been written to storage (`super().save()`). */
    var saves: nat

    /** The `PositiveIntegerField` constraint on `stock_quantity`. */
    predicate StockValid()
      reads this
    {
      stockQuantity >= 0
    }

    /** An instance that has not been saved yet. */
    constructor (name: string, price: int, categoryId: int, stockQuantity: int, sku: Option<string>)
      ensures this.name == name && this.price == price && this.categoryId == categoryId
      ensures this.stockQuantity == stockQuantity && this.sku == sku
      ensures id == None && saves == 0
    {
      this.name := name;
      this.price := price;
      this.categoryId := categoryId;
      this.stockQuantity := stockQuantity;
      this.sku := sku;
      id := None;
      saves := 0;
    }

    /** `__str__`: the name, then the SKU in parentheses, or `N/A` when there is none. */
    function Str(): (s: string)
      reads this
      ensures |s| == |name| + 8 + (if HasSku(sku) then |sku.value| else 3)
      ensures s[..|name|] == name && s[|name|..|name| + 7] == " (SKU: " && s[|s| - 1] == ')'
      ensures s[|name| + 7..|s| - 1] == if HasSku(sku) then sku.value else "N/A"
    {
      name + " (SKU: " + (if HasSku(sku) then sku.value else "N/A") + ")"
    }

    /**
      `save`: generate the SKU from the name and the current id when there is
      none, then write the record; a first insert gets `insertId` from storage.
     */
    method Save(insertId: int)
      modifies this
      ensures sku == if HasSku(old(sku)) then old(sku) else Some(GenerateSku(name, old(id)))
      ensures HasSku(sku)
      ensures id == if old(id).None? then Some(insertId) else old(id)
      ensures saves == old(saves) + 1
      ensures name == old(name) && price == old(price) && categoryId == old(categoryId)
      ensures stockQuantity == old(stockQuantity)
    {
      if !HasSku(sku) {
        sku := Some(GenerateSku(name, id));
      }
      if id.None? {
        id := Some(insertId);
      }
      saves := saves + 1;
    }

    /**
      `reduce_stock(quantity)`: raise on a non-positive quantity; with enough
      stock, decrement it, save and report `true`; otherwise report `false`
      and change nothing.
     */
    method ReduceStock(quantity: int, insertId: int) returns (r: Result<bool, ValueError>)
      modifies this
      ensures r == ReduceResult(old(stockQuantity), quantity)
      ensures stockQuantity == StockAfter(old(stockQuantity), quantity)
      ensures old(StockValid()) ==> StockValid()
      ensures r == Ok(true) ==> saves == old(saves) + 1
      ensures r == Ok(true) ==> sku == if HasSku(old(sku)) then old(sku) else Some(GenerateSku(name, old(id)))
      ensures r == Ok(true) ==> id == if old(id).None? then Some(insertId) else old(id)
      ensures r != Ok(true) ==> saves == old(saves) && sku == old(sku) && id == old(id)
      ensures name == old(name) && price == old(price) && categoryId == old(categoryId)
    {
      if quantity <= 0 {
        return Err(ValueError(QuantityNotPositive));
      }
      if stockQuantity >= quantity {
        stockQuantity := stockQuantity - quantity;
        Save(insertId);
        return Ok(true);
      }
      return Ok(false);
    }
  }

  /**
    A product created without a SKU and saved twice keeps the SKU of its
    first save, whose id segment is empty: the id assigned by that insert
    never reaches the SKU.
   */
  method SaveTwiceWithoutSku(insertId: int) returns (p: Product)
    ensures p.id == Some(insertId) && p.saves == 2
    ensures p.sku == Some("SKU-WID-")
  {
    p := new Product("Widget", 1999, 1, 10, None);
    p.Save(insertId);
    assert GenerateSku("Widget", None) == "SKU-WID-" by { WidgetSku(None); }
    p.Save(insertId + 1);
  }
}
