/**
 * Product stock and the append-only movement log of erp/modules/products.py and
 * the receiving step of erp/modules/purchasing.py.
 */
module Inventory {
  import opened Wrappers
  import opened Schema
  import Money

  /** The stock change a movement stands for: `out` lowers, `in` and `adjustment` raise
   *  (an adjustment records the signed difference). */
  function SignedQty(kind: MovementType, q: real): real {
    if kind == Out then -q else q
  }

  /** The new stock level and the quantity logged by one stock adjustment. */
  datatype StockChange = StockChange(newQty: real, recorded: real)

  /** The rule of `adjust_stock`: `in` adds, `out` subtracts with no floor at zero,
   *  `adjustment` sets the level and logs the difference. */
  function StockRule(current: real, kind: MovementType, q: real): (r: StockChange)
    ensures r.newQty == current + SignedQty(kind, r.recorded)
    ensures kind == Adjustment ==> r.newQty == q
    ensures kind != Adjustment ==> r.recorded == q
  {
    match kind
    case In => StockChange(current + q, q)
    case Out => StockChange(current - q, q)
    case Adjustment => StockChange(q, q - current)
  }

  /** Since the quantity must be positive, an adjustment can never set the stock to zero. */
  lemma AdjustmentNeverZero(current: real, q: real)
    requires q > 0.0
    ensures StockRule(current, Adjustment, q).newQty != 0.0
  {
  }

  /** Σ of the signed movements logged for product `id`. */
  function MovementSum(movements: seq<StockMovement>, id: int): real {
    if movements == [] then 0.0
    else
      var m := movements[|movements| - 1];
      MovementSum(movements[..|movements| - 1], id) + (if m.product == id then SignedQty(m.kind, m.quantity) else 0.0)
  }

  lemma MovementSumAppend(movements: seq<StockMovement>, m: StockMovement, id: int)
    ensures MovementSum(movements + [m], id)
         == MovementSum(movements, id) + (if m.product == id then SignedQty(m.kind, m.quantity) else 0.0)
  {
    assert (movements + [m])[..|movements|] == movements;
  }

  /** The part of product `k`'s stock that the log does not explain: what it was created
   *  with, plus direct overwrites by the edit form. */
  function Unlogged(products: seq<Product>, movements: seq<StockMovement>, k: nat): real
    requires k < |products|
  {
    products[k].stockQty - MovementSum(movements, k + 1)
  }

  predicate SkusUnique(products: seq<Product>) {
    forall i, j :: 0 <= i < j < |products| ==> products[i].sku != products[j].sku
  }

  /** Some product other than `except` (use 0 for none) already has this SKU. */
  predicate SkuTaken(products: seq<Product>, sku: string, except: int) {
    exists k :: 0 <= k < |products| && k + 1 != except && products[k].sku == sku
  }

  /** SKUs are unique and every movement names an existing product. */
  ghost predicate InventoryValid(products: seq<Product>, movements: seq<StockMovement>) {
    && SkusUnique(products)
    && forall m :: m in movements ==> ValidId(m.product, |products|)
  }

  // ------------------------------------------------------------ receiving

  /** Stock after adding each line's quantity to its product; an unknown product id
   *  matches no row. */
  function ReceiveStock(products: seq<Product>, lines: seq<OrderLine>): (r: seq<Product>)
    ensures |r| == |products|
  {
    if lines == [] then products
    else
      var before := ReceiveStock(products, lines[..|lines| - 1]);
      var l := lines[|lines| - 1];
      if ValidId(l.product, |before|) then
        before[l.product - 1 := before[l.product - 1].(stockQty := before[l.product - 1].stockQty + l.quantity)]
      else before
  }

  /** Σ of the quantities of the lines for product `id`. */
  function ReceivedQty(lines: seq<OrderLine>, id: int): real {
    if lines == [] then 0.0
    else ReceivedQty(lines[..|lines| - 1], id) + (if lines[|lines| - 1].product == id then lines[|lines| - 1].quantity else 0.0)
  }

  /** One `in` movement per line, referencing the purchase order. */
  function ReceiptMovements(lines: seq<OrderLine>, number: string): (r: seq<StockMovement>)
    ensures |r| == |lines|
    ensures forall i :: 0 <= i < |lines| ==>
              r[i] == StockMovement(lines[i].product, In, lines[i].quantity, Some(number), Some("Received from PO " + number))
  {
    if lines == [] then []
    else
      ReceiptMovements(lines[..|lines| - 1], number)
        + [StockMovement(lines[|lines| - 1].product, In, lines[|lines| - 1].quantity, Some(number), Some("Received from PO " + number))]
  }

  /** The receive loop: one stock update and one logged movement per line, in order. */
  method BookReceipt(products: seq<Product>, movements: seq<StockMovement>, lines: seq<OrderLine>, number: string)
    returns (stock: seq<Product>, log: seq<StockMovement>)
    ensures stock == ReceiveStock(products, lines)
    ensures log == movements + ReceiptMovements(lines, number)
  {
    stock, log := products, movements;
    for i := 0 to |lines|
      invariant stock == ReceiveStock(products, lines[..i])
      invariant log == movements + ReceiptMovements(lines[..i], number)
    {
      var l := lines[i];
      assert lines[..i + 1][..i] == lines[..i];
      if ValidId(l.product, |stock|) {
        stock := stock[l.product - 1 := stock[l.product - 1].(stockQty := stock[l.product - 1].stockQty + l.quantity)];
      }
      log := log + [StockMovement(l.product, In, l.quantity, Some(number), Some("Received from PO " + number))];
    }
    assert lines[..|lines|] == lines;
  }

  /** Receiving raises each product by the summed quantities of its lines and touches no
   *  other field and no other product. */
  lemma {:induction false} ReceiveStockEffect(products: seq<Product>, lines: seq<OrderLine>)
    ensures forall k :: 0 <= k < |products| ==>
      ReceiveStock(products, lines)[k] == products[k].(stockQty := products[k].stockQty + ReceivedQty(lines, k + 1))
  {
    if lines != [] {
      ReceiveStockEffect(products, lines[..|lines| - 1]);
    }
  }

  /** The receipt log explains exactly the stock that receiving adds. */
  lemma {:induction false} ReceiptMovementsSum(lines: seq<OrderLine>, number: string, movements: seq<StockMovement>, id: int)
    ensures MovementSum(movements + ReceiptMovements(lines, number), id) == MovementSum(movements, id) + ReceivedQty(lines, id)
  {
    if lines == [] {
      assert movements + [] == movements;
    } else {
      var init := lines[..|lines| - 1];
      var l := lines[|lines| - 1];
      ReceiptMovementsSum(init, number, movements, id);
      var m := StockMovement(l.product, In, l.quantity, Some(number), Some("Received from PO " + number));
      assert movements + ReceiptMovements(lines, number) == (movements + ReceiptMovements(init, number)) + [m];
      MovementSumAppend(movements + ReceiptMovements(init, number), m, id);
    }
  }

  /** Receiving leaves the unlogged part of every product's stock unchanged. */
  lemma ReceivePreservesUnlogged(products: seq<Product>, movements: seq<StockMovement>, lines: seq<OrderLine>, number: string, k: nat)
    requires k < |products|
    ensures Unlogged(ReceiveStock(products, lines), movements + ReceiptMovements(lines, number), k)
         == Unlogged(products, movements, k)
  {
    var q := ReceivedQty(lines, k + 1);
    ReceiveStockEffect(products, lines);
    assert ReceiveStock(products, lines)[k].stockQty == products[k].stockQty + q;
    ReceiptMovementsSum(lines, number, movements, k + 1);
    assert MovementSum(movements + ReceiptMovements(lines, number), k + 1) == MovementSum(movements, k + 1) + q;
  }

  /** A stock adjustment leaves the unlogged part of every product's stock unchanged. */
  lemma AdjustPreservesUnlogged(products: seq<Product>, movements: seq<StockMovement>, x: nat, kind: MovementType, q: real,
                                reference: Option<string>, notes: Option<string>, k: nat)
    requires x < |products| && k < |products|
    ensures var c := StockRule(products[x].stockQty, kind, q);
      Unlogged(products[x := products[x].(stockQty := c.newQty)],
               movements + [StockMovement(x + 1, kind, c.recorded, reference, notes)], k)
        == Unlogged(products, movements, k)
  {
    var c := StockRule(products[x].stockQty, kind, q);
    MovementSumAppend(movements, StockMovement(x + 1, kind, c.recorded, reference, notes), k + 1);
  }

  /** A product row as the create and edit forms write it: blank amounts are 0 and a
   *  blank unit is `unit`. */
  function NewProduct(sku: string, name: string, description: string,
                      unitPrice: Option<real>, costPrice: Option<real>, stockQty: Option<real>,
                      reorderLevel: Option<real>, unit: string, active: bool): (p: Product)
    ensures p.sku == sku && p.name == name && p.description == description && p.active == active
    ensures unit == "" ==> p.unit == "unit"
    ensures unit != "" ==> p.unit == unit
    ensures (unitPrice.None? ==> p.unitPrice == 0.0) && (unitPrice.Some? ==> p.unitPrice == unitPrice.value)
    ensures (costPrice.None? ==> p.costPrice == 0.0) && (costPrice.Some? ==> p.costPrice == costPrice.value)
    ensures (stockQty.None? ==> p.stockQty == 0.0) && (stockQty.Some? ==> p.stockQty == stockQty.value)
    ensures (reorderLevel.None? ==> p.reorderLevel == 0.0) && (reorderLevel.Some? ==> p.reorderLevel == reorderLevel.value)
  {
    Product(sku, name, description, Money.Amount(unitPrice), Money.Amount(costPrice),
            Money.Amount(stockQty), Money.Amount(reorderLevel), if unit == "" then "unit" else unit, active)
  }

  // ------------------------------------------------------------ what the handlers preserve

  lemma InventoryAddProduct(products: seq<Product>, movements: seq<StockMovement>, p: Product)
    requires InventoryValid(products, movements) && !SkuTaken(products, p.sku, 0)
    ensures InventoryValid(products + [p], movements)
  {
    var grown := products + [p];
    forall i, j | 0 <= i < j < |grown| ensures grown[i].sku != grown[j].sku {
      if j == |products| {
        assert grown[i] == products[i];
      }
    }
  }

  lemma InventoryEditProduct(products: seq<Product>, movements: seq<StockMovement>, x: nat, p: Product)
    requires InventoryValid(products, movements)
    requires x < |products| && !SkuTaken(products, p.sku, x + 1)
    ensures InventoryValid(products[x := p], movements)
  {
  }

  lemma InventoryAdjust(products: seq<Product>, movements: seq<StockMovement>, x: nat, newQty: real, m: StockMovement)
    requires InventoryValid(products, movements)
    requires x < |products| && m.product == x + 1
    ensures InventoryValid(products[x := products[x].(stockQty := newQty)], movements + [m])
  {
    var changed := products[x := products[x].(stockQty := newQty)];
    forall i, j | 0 <= i < j < |changed| ensures changed[i].sku != changed[j].sku {
      assert changed[i].sku == products[i].sku && changed[j].sku == products[j].sku;
    }
  }

  lemma InventoryReceive(products: seq<Product>, movements: seq<StockMovement>, lines: seq<OrderLine>, number: string)
    requires InventoryValid(products, movements)
    requires forall l :: l in lines ==> ValidId(l.product, |products|)
    ensures InventoryValid(ReceiveStock(products, lines), movements + ReceiptMovements(lines, number))
  {
    var after := ReceiveStock(products, lines);
    ReceiveStockEffect(products, lines);
    forall i, j | 0 <= i < j < |after| ensures after[i].sku != after[j].sku {
      assert after[i].sku == products[i].sku && after[j].sku == products[j].sku;
    }
    var added := ReceiptMovements(lines, number);
    forall m | m in movements + added ensures ValidId(m.product, |after|) {
      if m !in movements {
        var i :| 0 <= i < |added| && added[i] == m;
        assert lines[i] in lines;
      }
    }
  }
}
