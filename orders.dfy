/**
 * Sales orders, invoices and purchase orders: the status lifecycles that the
 * handlers of erp/modules/sales.py and erp/modules/purchasing.py enforce, the
 * saving of submitted order lines with their totals, and the copy of an order
 * into its invoice.
 */
module Orders {
  import opened Wrappers
  import opened Schema
  import Money
  import Numbering

  // ------------------------------------------------------------ lifecycles

  datatype SalesEvent = SalesEdit | SalesConfirm | SalesCancel | SalesInvoice

  /** The status a sales order moves to, or None when the handler refuses. */
  function SalesStep(s: SalesStatus, ev: SalesEvent): (r: Option<SalesStatus>)
    ensures r != Some(Shipped)
    ensures r.Some? && s == Invoiced ==> r.value == Invoiced
  {
    match ev
    case SalesEdit => if s == Draft then Some(Draft) else None
    case SalesConfirm => if s == Draft then Some(Confirmed) else None
    case SalesCancel => if s == Invoiced || s == Cancelled then None else Some(Cancelled)
    case SalesInvoice => if s == Confirmed || s == Shipped then Some(Invoiced) else None
  }

  /** The status after a run of requests; a refused request changes nothing. */
  function SalesRun(s: SalesStatus, evs: seq<SalesEvent>): SalesStatus {
    if evs == [] then s
    else
      var before := SalesRun(s, evs[..|evs| - 1]);
      match SalesStep(before, evs[|evs| - 1])
      case None => before
      case Some(t) => t
  }

  /** No request ever makes an order `shipped`, so from `draft` it is never reached. */
  lemma {:induction false} ShippedUnreachable(evs: seq<SalesEvent>)
    ensures SalesRun(Draft, evs) != Shipped
  {
    if evs != [] {
      ShippedUnreachable(evs[..|evs| - 1]);
    }
  }

  /** An invoiced order stays invoiced: it can be neither edited, confirmed, cancelled nor invoiced again. */
  lemma {:induction false} InvoicedIsFinal(evs: seq<SalesEvent>)
    ensures SalesRun(Invoiced, evs) == Invoiced
    ensures forall ev :: SalesStep(Invoiced, ev).None?
  {
    if evs != [] {
      InvoicedIsFinal(evs[..|evs| - 1]);
    }
  }

  datatype PurchaseEvent = PurchaseEdit | PurchaseConfirm | PurchaseReceive | PurchaseCancel

  function PurchaseStep(s: PurchaseStatus, ev: PurchaseEvent): (r: Option<PurchaseStatus>)
    ensures r != Some(PoInvoiced)
  {
    match ev
    case PurchaseEdit => if s == PoDraft then Some(PoDraft) else None
    case PurchaseConfirm => if s == PoDraft then Some(PoConfirmed) else None
    case PurchaseReceive => if s == PoConfirmed then Some(Received) else None
    case PurchaseCancel => if s == Received || s == PoInvoiced then None else Some(PoCancelled)
  }

  function PurchaseRun(s: PurchaseStatus, evs: seq<PurchaseEvent>): PurchaseStatus {
    if evs == [] then s
    else
      var before := PurchaseRun(s, evs[..|evs| - 1]);
      match PurchaseStep(before, evs[|evs| - 1])
      case None => before
      case Some(t) => t
  }

  /** No request produces `invoiced` for a purchase order. */
  lemma {:induction false} PoInvoicedUnreachable(evs: seq<PurchaseEvent>)
    ensures PurchaseRun(PoDraft, evs) != PoInvoiced
  {
    if evs != [] {
      PoInvoicedUnreachable(evs[..|evs| - 1]);
    }
  }

  /** A received order is received for good, so its stock is never booked twice. */
  lemma {:induction false} ReceivedIsFinal(evs: seq<PurchaseEvent>)
    ensures PurchaseRun(Received, evs) == Received
  {
    if evs != [] {
      ReceivedIsFinal(evs[..|evs| - 1]);
    }
  }

  /** A purchase order is received at most once along any run of requests. */
  lemma {:induction false} ReceiveAtMostOnce(s: PurchaseStatus, evs: seq<PurchaseEvent>, i: nat, j: nat)
    requires i < j < |evs| && evs[i] == PurchaseReceive && evs[j] == PurchaseReceive
    requires PurchaseStep(PurchaseRun(s, evs[..i]), PurchaseReceive).Some?
    ensures PurchaseStep(PurchaseRun(s, evs[..j]), PurchaseReceive).None?
  {
    assert PurchaseRun(s, evs[..i + 1]) == Received by {
      assert evs[..i + 1][..i] == evs[..i];
    }
    RunFrom(s, evs, i + 1, j);
    ReceivedIsFinal(evs[i + 1..j]);
  }

  lemma {:induction false} RunFrom(s: PurchaseStatus, evs: seq<PurchaseEvent>, i: nat, j: nat)
    requires i <= j <= |evs|
    ensures PurchaseRun(s, evs[..j]) == PurchaseRun(PurchaseRun(s, evs[..i]), evs[i..j])
  {
    if j > i {
      RunFrom(s, evs, i, j - 1);
      assert evs[..j][..j - 1] == evs[..j - 1];
      assert evs[i..j][..j - 1 - i] == evs[i..j - 1];
    } else {
      assert evs[i..j] == [];
    }
  }

  // ------------------------------------------------------------ totals

  datatype Totals = Totals(subtotal: real, tax: real, total: real)

  /** The flat 10% tax applied to a subtotal. */
  const TaxRate: real := 0.1

  function LineTotalSum(lines: seq<OrderLine>): real {
    if lines == [] then 0.0 else LineTotalSum(lines[..|lines| - 1]) + lines[|lines| - 1].lineTotal
  }

  lemma LineTotalSumAppend(lines: seq<OrderLine>, l: OrderLine)
    ensures LineTotalSum(lines + [l]) == LineTotalSum(lines) + l.lineTotal
  {
    assert (lines + [l])[..|lines|] == lines;
  }

  /** Sales totals: tax and total both come from the unrounded subtotal `s`, and the stored
   *  subtotal is `s` rounded last. Each is a whole number of cents within half a cent of
   *  its exact value. */
  function SalesTotals(s: real): (t: Totals)
    ensures Money.IsCents(t.subtotal) && Money.IsCents(t.tax) && Money.IsCents(t.total)
    ensures -0.005 <= t.subtotal - s <= 0.005
    ensures -0.005 <= t.tax - s * TaxRate <= 0.005
    ensures -0.01 <= t.total - s * (1.0 + TaxRate) <= 0.01
  {
    var tax := Money.Round2(s * TaxRate);
    Totals(Money.Round2(s), tax, Money.Round2(s + tax))
  }

  /** 10 × 1299.99 gives 12999.90 / 1299.99 / 14299.89. */
  lemma SalesTotalsFixture()
    ensures SalesTotals(10.0 * 1299.99) == Totals(12999.9, 1299.99, 14299.89)
  {
    Money.Round2Cents(12999.9);
    Money.Round2Cents(1299.99);
    Money.Round2Cents(14299.89);
  }

  /** Because the subtotal is rounded separately, the stored total need not be the stored
   *  subtotal plus the stored tax: one line of 0.5 at 0.25 is 0.12 + 0.01 but totals 0.14. */
  lemma SalesTotalsCanDisagree()
    ensures SalesTotals(0.5 * 0.25) == Totals(0.12, 0.01, 0.14)
    ensures SalesTotals(0.5 * 0.25).total != SalesTotals(0.5 * 0.25).subtotal + SalesTotals(0.5 * 0.25).tax
  {
    Money.Round2TieIsEven(12);
    assert (0.125 * 100.0).Floor == 12;
    assert (0.0125 * 100.0).Floor == 1;
    assert (0.135 * 100.0).Floor == 13;
  }

  /** When the line totals add up to whole cents, the stored figures are consistent. */
  lemma SalesTotalsOfCents(s: real)
    requires Money.IsCents(s)
    ensures SalesTotals(s).subtotal == s
    ensures SalesTotals(s).total == SalesTotals(s).subtotal + SalesTotals(s).tax
  {
    Money.Round2Cents(s);
    var tax := Money.Round2(s * TaxRate);
    Money.CentsAdd(s, tax);
    Money.Round2Cents(s + tax);
  }

  /** Purchase totals: the subtotal is rounded first and the tax taken from it, so the total
   *  is always exactly subtotal plus tax, and whole-cent line totals are summed exactly. */
  function PurchaseTotals(s: real): (t: Totals)
    ensures Money.IsCents(t.subtotal) && Money.IsCents(t.tax)
    ensures t.total == t.subtotal + t.tax
    ensures Money.IsCents(s) ==> t.subtotal == s
  {
    var subtotal := Money.Round2(s);
    var tax := Money.Round2(subtotal * TaxRate);
    Money.CentsAdd(subtotal, tax);
    Money.Round2Cents(subtotal + tax);
    if Money.IsCents(s) then
      Money.Round2Cents(s);
      Totals(subtotal, tax, Money.Round2(subtotal + tax))
    else
      Totals(subtotal, tax, Money.Round2(subtotal + tax))
  }

  // ------------------------------------------------------------ sales order lines

  /** A sales form row is used only when product, quantity and price are all filled in
   *  (a "0" is filled in). */
  predicate SalesKept(ids: seq<Option<int>>, qtys: seq<Option<real>>, prices: seq<Option<real>>, i: nat)
    requires i < |ids| && i < |qtys| && i < |prices|
  {
    ids[i].Some? && qtys[i].Some? && prices[i].Some?
  }

  /** An order line as the sales form stores it: no description, default tax rate, and the
   *  unrounded product as line total. */
  function SalesLine(product: int, q: real, p: real): OrderLine {
    OrderLine(product, None, q, p, 0.0, q * p)
  }

  function KeptSalesLines(ids: seq<Option<int>>, qtys: seq<Option<real>>, prices: seq<Option<real>>, n: nat): (lines: seq<OrderLine>)
    requires n <= |ids| && n <= |qtys| && n <= |prices|
    ensures |lines| <= n
    ensures forall l :: l in lines ==> l == SalesLine(l.product, l.quantity, l.unitPrice)
  {
    if n == 0 then []
    else
      KeptSalesLines(ids, qtys, prices, n - 1)
        + (if SalesKept(ids, qtys, prices, n - 1)
           then [SalesLine(ids[n - 1].value, qtys[n - 1].value, prices[n - 1].value)] else [])
  }

  /** One more row either adds its line or adds nothing. */
  lemma KeptSalesStep(ids: seq<Option<int>>, qtys: seq<Option<real>>, prices: seq<Option<real>>, i: nat)
    requires i < |ids| && i < |qtys| && i < |prices|
    ensures KeptSalesLines(ids, qtys, prices, i + 1) == KeptSalesLines(ids, qtys, prices, i)
      + (if SalesKept(ids, qtys, prices, i) then [SalesLine(ids[i].value, qtys[i].value, prices[i].value)] else [])
  {
  }

  lemma {:induction false} KeptSalesLinesComplete(ids: seq<Option<int>>, qtys: seq<Option<real>>, prices: seq<Option<real>>, n: nat, i: nat)
    requires i < n <= |ids| && n <= |qtys| && n <= |prices|
    requires SalesKept(ids, qtys, prices, i)
    ensures SalesLine(ids[i].value, qtys[i].value, prices[i].value) in KeptSalesLines(ids, qtys, prices, n)
  {
    if i < n - 1 {
      KeptSalesLinesComplete(ids, qtys, prices, n - 1, i);
    }
  }

  lemma {:induction false} KeptSalesLinesSound(ids: seq<Option<int>>, qtys: seq<Option<real>>, prices: seq<Option<real>>, n: nat, l: OrderLine)
    requires n <= |ids| && n <= |qtys| && n <= |prices|
    requires l in KeptSalesLines(ids, qtys, prices, n)
    ensures exists i :: 0 <= i < n && SalesKept(ids, qtys, prices, i) && l == SalesLine(ids[i].value, qtys[i].value, prices[i].value)
  {
    if l in KeptSalesLines(ids, qtys, prices, n - 1) {
      KeptSalesLinesSound(ids, qtys, prices, n - 1, l);
    }
  }

  /** The lines a sales form yields, or None when the request crashes: a quantity or price
   *  list shorter than the product list raises IndexError, and a line naming no product
   *  violates its foreign key. */
  function SalesLinesOf(ids: seq<Option<int>>, qtys: seq<Option<real>>, prices: seq<Option<real>>, productCount: nat): (r: Option<seq<OrderLine>>)
    ensures r.Some? ==> |qtys| >= |ids| && |prices| >= |ids|
    ensures r.Some? ==> forall l :: l in r.value ==> ValidId(l.product, productCount)
  {
    if |qtys| < |ids| || |prices| < |ids| then None
    else
      var lines := KeptSalesLines(ids, qtys, prices, |ids|);
      if forall l :: l in lines ==> ValidId(l.product, productCount) then Some(lines) else None
  }

  /** A form row naming a missing product makes the whole form fail. */
  lemma SalesLinesOfMissing(ids: seq<Option<int>>, qtys: seq<Option<real>>, prices: seq<Option<real>>, productCount: nat, i: nat)
    requires |qtys| >= |ids| && |prices| >= |ids| && i < |ids|
    requires SalesKept(ids, qtys, prices, i) && !ValidId(ids[i].value, productCount)
    ensures SalesLinesOf(ids, qtys, prices, productCount).None?
  {
    KeptSalesLinesComplete(ids, qtys, prices, |ids|, i);
  }

  /** The loop of `_save_order_lines`: builds the lines and the running unrounded subtotal. */
  method SaveSalesLines(ids: seq<Option<int>>, qtys: seq<Option<real>>, prices: seq<Option<real>>, productCount: nat)
    returns (lines: Option<seq<OrderLine>>, subtotal: real)
    ensures lines == SalesLinesOf(ids, qtys, prices, productCount)
    ensures lines.Some? ==> subtotal == LineTotalSum(lines.value)
  {
    var acc: seq<OrderLine> := [];
    subtotal := 0.0;
    // a quantity or price list shorter than the product list raises IndexError once the
    // loop reaches its end; that rolls the request back, so the failure is decided here
    if |qtys| < |ids| || |prices| < |ids| {
      return None, subtotal;
    }
    for i := 0 to |ids|
      invariant acc == KeptSalesLines(ids, qtys, prices, i)
      invariant forall l :: l in acc ==> ValidId(l.product, productCount)
      invariant subtotal == LineTotalSum(acc)
    {
      KeptSalesStep(ids, qtys, prices, i);
      if ids[i].None? || qtys[i].None? || prices[i].None? {
        continue;
      }
      var line := SalesLine(ids[i].value, qtys[i].value, prices[i].value);
      if !ValidId(line.product, productCount) {
        SalesLinesOfMissing(ids, qtys, prices, productCount, i);
        return None, subtotal;
      }
      LineTotalSumAppend(acc, line);
      acc, subtotal := acc + [line], subtotal + line.lineTotal;
    }
    lines := Some(acc);
  }

  // ------------------------------------------------------------ purchase order lines

  /** `zip` stops at the shortest of the three lists. */
  function ZipLength(a: nat, b: nat, c: nat): (n: nat)
    ensures n <= a && n <= b && n <= c
    ensures n == a || n == b || n == c
  {
    if a <= b && a <= c then a else if b <= c then b else c
  }

  /** A purchase line: a blank quantity or price counts as 0 and the line total is rounded. */
  function PurchaseLine(product: int, q: Option<real>, p: Option<real>): (l: OrderLine)
    ensures RoundedLine(l) && Money.IsCents(l.lineTotal)
  {
    var qty, price := Money.Amount(q), Money.Amount(p);
    var l := OrderLine(product, None, qty, price, 0.0, Money.Round2(qty * price));
    assert l.quantity * l.unitPrice == qty * price;
    assert Money.Round2(l.quantity * l.unitPrice) == Money.Round2(qty * price);
    assert RoundedLine(l);
    l
  }

  /** A line whose total is its quantity times its price, rounded to the cent. */
  predicate RoundedLine(l: OrderLine) {
    l.lineTotal == Money.Round2(l.quantity * l.unitPrice)
  }

  function KeptPurchaseLines(ids: seq<Option<int>>, qtys: seq<Option<real>>, prices: seq<Option<real>>, n: nat): (lines: seq<OrderLine>)
    requires n <= |ids| && n <= |qtys| && n <= |prices|
    ensures |lines| <= n
    ensures forall l :: l in lines ==> RoundedLine(l) && Money.IsCents(l.lineTotal)
  {
    if n == 0 then []
    else if ids[n - 1].Some? then
      var line := PurchaseLine(ids[n - 1].value, qtys[n - 1], prices[n - 1]);
      var rest := KeptPurchaseLines(ids, qtys, prices, n - 1);
      rest + [line]
    else
      KeptPurchaseLines(ids, qtys, prices, n - 1)
  }

  lemma {:induction false} KeptPurchaseLinesComplete(ids: seq<Option<int>>, qtys: seq<Option<real>>, prices: seq<Option<real>>, n: nat, i: nat)
    requires i < n <= |ids| && n <= |qtys| && n <= |prices|
    requires ids[i].Some?
    ensures PurchaseLine(ids[i].value, qtys[i], prices[i]) in KeptPurchaseLines(ids, qtys, prices, n)
  {
    if i < n - 1 {
      KeptPurchaseLinesComplete(ids, qtys, prices, n - 1, i);
    }
  }

  /** Every kept line is the line of a row that names a product. */
  lemma {:induction false} KeptPurchaseLinesSound(ids: seq<Option<int>>, qtys: seq<Option<real>>, prices: seq<Option<real>>, n: nat, l: OrderLine)
    requires n <= |ids| && n <= |qtys| && n <= |prices|
    requires l in KeptPurchaseLines(ids, qtys, prices, n)
    ensures exists i :: 0 <= i < n && ids[i].Some? && l == PurchaseLine(ids[i].value, qtys[i], prices[i])
  {
    if l in KeptPurchaseLines(ids, qtys, prices, n - 1) {
      KeptPurchaseLinesSound(ids, qtys, prices, n - 1, l);
    }
  }

  /** The lines a purchase form yields, or None when a line names no product. */
  function PurchaseLinesOf(ids: seq<Option<int>>, qtys: seq<Option<real>>, prices: seq<Option<real>>, productCount: nat): (r: Option<seq<OrderLine>>)
    ensures r.Some? ==> forall l :: l in r.value ==> ValidId(l.product, productCount)
  {
    var lines := KeptPurchaseLines(ids, qtys, prices, ZipLength(|ids|, |qtys|, |prices|));
    if forall l :: l in lines ==> ValidId(l.product, productCount) then Some(lines) else None
  }

  /** The loop of `_save_po`: builds the lines and the sum of their rounded totals. */
  method SavePurchaseLines(ids: seq<Option<int>>, qtys: seq<Option<real>>, prices: seq<Option<real>>, productCount: nat)
    returns (lines: Option<seq<OrderLine>>, subtotal: real)
    ensures lines == PurchaseLinesOf(ids, qtys, prices, productCount)
    ensures lines.Some? ==> subtotal == LineTotalSum(lines.value)
  {
    var n := ZipLength(|ids|, |qtys|, |prices|);
    var acc: seq<OrderLine> := [];
    subtotal := 0.0;
    for i := 0 to n
      invariant acc == KeptPurchaseLines(ids, qtys, prices, i)
      invariant forall l :: l in acc ==> ValidId(l.product, productCount)
      invariant subtotal == LineTotalSum(acc)
    {
      if ids[i].None? {
        continue;
      }
      var line := PurchaseLine(ids[i].value, qtys[i], prices[i]);
      if !ValidId(line.product, productCount) {
        KeptPurchaseLinesComplete(ids, qtys, prices, n, i);
        return None, subtotal;
      }
      LineTotalSumAppend(acc, line);
      acc := acc + [line];
      subtotal := subtotal + line.lineTotal;
    }
    lines := Some(acc);
  }

  /** Whole-cent line totals add up to whole cents. */
  lemma {:induction false} CentsLinesSum(lines: seq<OrderLine>)
    requires forall l :: l in lines ==> Money.IsCents(l.lineTotal)
    ensures Money.IsCents(LineTotalSum(lines))
  {
    if lines != [] {
      assert forall l :: l in lines[..|lines| - 1] ==> l in lines;
      CentsLinesSum(lines[..|lines| - 1]);
      assert lines[|lines| - 1] in lines;
      Money.CentsAdd(LineTotalSum(lines[..|lines| - 1]), lines[|lines| - 1].lineTotal);
    }
  }

  /** A saved purchase order's subtotal is exactly the sum of its line totals. */
  lemma PurchaseSubtotalExact(lines: seq<OrderLine>)
    requires forall l :: l in lines ==> Money.IsCents(l.lineTotal)
    ensures PurchaseTotals(LineTotalSum(lines)).subtotal == LineTotalSum(lines)
  {
    CentsLinesSum(lines);
  }

  // ------------------------------------------------------------ invoices

  function InvoiceLineOf(l: OrderLine): InvoiceLine {
    InvoiceLine(l.product, l.description, l.quantity, l.unitPrice, l.taxRate, l.lineTotal)
  }

  /** The invoice lines an order's lines become: one per line, field for field. */
  function InvoiceLinesOf(lines: seq<OrderLine>): (r: seq<InvoiceLine>)
    ensures |r| == |lines|
    ensures forall i :: 0 <= i < |lines| ==> r[i] == InvoiceLineOf(lines[i])
  {
    if lines == [] then [] else InvoiceLinesOf(lines[..|lines| - 1]) + [InvoiceLineOf(lines[|lines| - 1])]
  }

  function InvoiceTotalSum(lines: seq<InvoiceLine>): real {
    if lines == [] then 0.0 else InvoiceTotalSum(lines[..|lines| - 1]) + lines[|lines| - 1].lineTotal
  }

  /** The copied lines add up to the same amount as the order's. */
  lemma {:induction false} InvoiceLinesTotal(lines: seq<OrderLine>)
    ensures InvoiceTotalSum(InvoiceLinesOf(lines)) == LineTotalSum(lines)
  {
    if lines != [] {
      InvoiceLinesTotal(lines[..|lines| - 1]);
      var r := InvoiceLinesOf(lines);
      assert r[..|r| - 1] == InvoiceLinesOf(lines[..|lines| - 1]);
    }
  }

  /** The copy loop of `create_invoice`. */
  method CopyInvoiceLines(lines: seq<OrderLine>) returns (copied: seq<InvoiceLine>)
    ensures copied == InvoiceLinesOf(lines)
  {
    copied := [];
    for i := 0 to |lines|
      invariant copied == InvoiceLinesOf(lines[..i])
    {
      assert lines[..i + 1][..i] == lines[..i];
      copied := copied + [InvoiceLineOf(lines[i])];
    }
    assert lines[..|lines|] == lines;
  }

  /** The invoice `create_invoice` makes for order `id`: a draft carrying the order's
   *  customer, totals, notes and lines, dated today, nothing paid. */
  function InvoiceFor(number: string, id: nat, o: SalesOrder, today: int): (inv: Invoice)
    ensures inv.number == number && inv.status == InvDraft && inv.salesOrder == Some(id) && inv.amountPaid == 0.0
    ensures inv.customer == o.customer && inv.notes == o.notes
    ensures (inv.subtotal, inv.tax, inv.total) == (o.subtotal, o.tax, o.total)
    ensures InvoiceTotalSum(inv.lines) == LineTotalSum(o.lines)
  {
    InvoiceLinesTotal(o.lines);
    Invoice(number, Some(id), o.customer, today, None, InvDraft,
            o.subtotal, o.tax, o.total, 0.0, o.notes, InvoiceLinesOf(o.lines))
  }

  // ------------------------------------------------------------ saved orders

  /** A sales order as `new` or `edit` leaves it: draft, with the saved lines and the
   *  totals recomputed from them. */
  function DraftOrder(number: string, customer: int, date: int, notes: string, lines: seq<OrderLine>): SalesOrder {
    var t := SalesTotals(LineTotalSum(lines));
    SalesOrder(number, customer, date, Draft, t.subtotal, t.tax, t.total, notes, lines)
  }

  /** A purchase order as `new` or `edit` leaves it. */
  function DraftPurchase(number: string, supplier: int, date: int, expected: Option<int>, notes: string, lines: seq<OrderLine>): PurchaseOrder {
    var t := PurchaseTotals(LineTotalSum(lines));
    PurchaseOrder(number, supplier, date, expected, PoDraft, t.subtotal, t.tax, t.total, notes, lines)
  }

  // ------------------------------------------------------------ invariants

  /** The `order_number` column of the sales orders. */
  function OrderNumbers(orders: seq<SalesOrder>): seq<string> {
    Numbering.NumberColumn(orders, (o: SalesOrder) => o.number)
  }

  /** The `invoice_number` column of the invoices. */
  function InvoiceNumbers(invoices: seq<Invoice>): seq<string> {
    Numbering.NumberColumn(invoices, (v: Invoice) => v.number)
  }

  /** The `po_number` column of the purchase orders. */
  function PurchaseNumbers(orders: seq<PurchaseOrder>): seq<string> {
    Numbering.NumberColumn(orders, (o: PurchaseOrder) => o.number)
  }

  /** A sales order as the handlers leave it: never shipped, lines on existing products,
   *  totals recomputed from its lines. */
  ghost predicate SalesOrderValid(o: SalesOrder, productCount: nat) {
    && o.status != Shipped
    && (forall l :: l in o.lines ==> ValidId(l.product, productCount) && l == SalesLine(l.product, l.quantity, l.unitPrice))
    && Totals(o.subtotal, o.tax, o.total) == SalesTotals(LineTotalSum(o.lines))
  }

  /** An invoice is the snapshot of an invoiced order, still draft or paid in full. */
  ghost predicate InvoiceValid(inv: Invoice, orders: seq<SalesOrder>) {
    && inv.salesOrder.Some? && ValidId(inv.salesOrder.value, |orders|)
    && var o := orders[inv.salesOrder.value - 1];
    && o.status == Invoiced
    && inv.customer == o.customer && inv.notes == o.notes
    && inv.subtotal == o.subtotal && inv.tax == o.tax && inv.total == o.total
    && inv.lines == InvoiceLinesOf(o.lines)
    && (inv.status == InvDraft || inv.status == Paid)
    && inv.amountPaid == (if inv.status == Paid then inv.total else 0.0)
  }

  /** The sales invariant: numbers sequential (hence unique), orders and invoices valid, and
   *  at most one invoice per order. */
  ghost predicate SalesValid(productCount: nat, orders: seq<SalesOrder>, invoices: seq<Invoice>) {
    && Numbering.Sequential("SO", OrderNumbers(orders))
    && Numbering.Sequential("INV", InvoiceNumbers(invoices))
    && (forall o :: o in orders ==> SalesOrderValid(o, productCount))
    && (forall inv :: inv in invoices ==> InvoiceValid(inv, orders))
    && (forall i, j :: 0 <= i < j < |invoices| ==> invoices[i].salesOrder != invoices[j].salesOrder)
  }

  ghost predicate PurchaseOrderValid(po: PurchaseOrder, productCount: nat) {
    && po.status != PoInvoiced
    && (forall l :: l in po.lines ==> ValidId(l.product, productCount) && RoundedLine(l))
    && Totals(po.subtotal, po.tax, po.total) == PurchaseTotals(LineTotalSum(po.lines))
  }

  ghost predicate PurchasingValid(productCount: nat, orders: seq<PurchaseOrder>) {
    && Numbering.Sequential("PO", PurchaseNumbers(orders))
    && forall po :: po in orders ==> PurchaseOrderValid(po, productCount)
  }

  /** On a valid store a purchase order's figures add up and its subtotal is the exact sum
   *  of its line totals. */
  lemma PurchaseOrderConsistent(po: PurchaseOrder, productCount: nat)
    requires PurchaseOrderValid(po, productCount)
    ensures po.total == po.subtotal + po.tax
    ensures po.subtotal == LineTotalSum(po.lines)
  {
    PurchaseSubtotalExact(po.lines);
  }

  /** On a valid store every invoice's line totals add up to what its order's do. */
  lemma InvoiceMatchesOrder(productCount: nat, orders: seq<SalesOrder>, invoices: seq<Invoice>, k: nat)
    requires SalesValid(productCount, orders, invoices) && k < |invoices|
    ensures invoices[k].salesOrder.Some? && ValidId(invoices[k].salesOrder.value, |orders|)
    ensures var o := orders[invoices[k].salesOrder.value - 1];
      InvoiceTotalSum(invoices[k].lines) == LineTotalSum(o.lines)
      && invoices[k].total == o.total
  {
    assert invoices[k] in invoices;
    InvoiceLinesTotal(orders[invoices[k].salesOrder.value - 1].lines);
  }

  // ------------------------------------------------------------ what the handlers preserve

  /** More products never invalidate an order. */
  lemma SalesGrow(n: nat, m: nat, orders: seq<SalesOrder>, invoices: seq<Invoice>)
    requires SalesValid(n, orders, invoices) && n <= m
    ensures SalesValid(m, orders, invoices)
  {
    forall o | o in orders ensures SalesOrderValid(o, m) {
      assert SalesOrderValid(o, n);
    }
  }

  lemma PurchasingGrow(n: nat, m: nat, orders: seq<PurchaseOrder>)
    requires PurchasingValid(n, orders) && n <= m
    ensures PurchasingValid(m, orders)
  {
    forall po | po in orders ensures PurchaseOrderValid(po, m) {
      assert PurchaseOrderValid(po, n);
    }
  }

  /** A new order with the next number keeps the sales tables valid. */
  lemma SalesAddOrder(n: nat, orders: seq<SalesOrder>, invoices: seq<Invoice>, o: SalesOrder)
    requires SalesValid(n, orders, invoices)
    requires o.number == Numbering.Format("SO", |orders| + 1) && o.status != Invoiced && SalesOrderValid(o, n)
    ensures SalesValid(n, orders + [o], invoices)
  {
    var grown := orders + [o];
    forall inv | inv in invoices ensures InvoiceValid(inv, grown) {
      assert InvoiceValid(inv, orders);
      assert grown[inv.salesOrder.value - 1] == orders[inv.salesOrder.value - 1];
    }
  }

  /** Replacing a not-invoiced order by one that is still not invoiced (edit, confirm,
   *  cancel) keeps the sales tables valid: no invoice refers to either. */
  lemma SalesReplaceOrder(n: nat, orders: seq<SalesOrder>, invoices: seq<Invoice>, x: nat, o: SalesOrder)
    requires SalesValid(n, orders, invoices) && x < |orders|
    requires orders[x].status != Invoiced && o.status != Invoiced
    requires o.number == orders[x].number && SalesOrderValid(o, n)
    ensures SalesValid(n, orders[x := o], invoices)
  {
    var changed := orders[x := o];
    forall inv | inv in invoices ensures InvoiceValid(inv, changed) {
      assert InvoiceValid(inv, orders);
      assert inv.salesOrder.value - 1 != x;
    }
    forall o' | o' in changed ensures SalesOrderValid(o', n) {
      var i :| 0 <= i < |changed| && changed[i] == o';
      if i != x {
        assert orders[i] in orders;
      }
    }
  }

  /** No invoice refers to an order that is not invoiced. */
  lemma NoInvoiceYet(orders: seq<SalesOrder>, invoices: seq<Invoice>, x: nat)
    requires forall inv :: inv in invoices ==> InvoiceValid(inv, orders)
    requires x < |orders| && orders[x].status != Invoiced
    ensures forall i :: 0 <= i < |invoices| ==> invoices[i].salesOrder != Some(x + 1)
  {
    forall i | 0 <= i < |invoices| ensures invoices[i].salesOrder != Some(x + 1) {
      assert invoices[i] in invoices;
    }
  }

  /** Marking order `x` invoiced leaves every invoice on another order valid. */
  lemma InvoicesAfterInvoicing(orders: seq<SalesOrder>, invoices: seq<Invoice>, x: nat)
    requires forall inv :: inv in invoices ==> InvoiceValid(inv, orders)
    requires x < |orders|
    requires forall i :: 0 <= i < |invoices| ==> invoices[i].salesOrder != Some(x + 1)
    ensures forall inv :: inv in invoices ==> InvoiceValid(inv, orders[x := orders[x].(status := Invoiced)])
  {
    forall inv | inv in invoices ensures InvoiceValid(inv, orders[x := orders[x].(status := Invoiced)]) {
      var i :| 0 <= i < |invoices| && invoices[i] == inv;
      assert InvoiceValid(inv, orders);
    }
  }

  /** Marking an order invoiced keeps every order valid. */
  lemma OrdersAfterInvoicing(n: nat, orders: seq<SalesOrder>, x: nat)
    requires forall o :: o in orders ==> SalesOrderValid(o, n)
    requires x < |orders|
    ensures forall o :: o in orders[x := orders[x].(status := Invoiced)] ==> SalesOrderValid(o, n)
  {
    var changed := orders[x := orders[x].(status := Invoiced)];
    forall o | o in changed ensures SalesOrderValid(o, n) {
      var i :| 0 <= i < |changed| && changed[i] == o;
      assert orders[i] in orders;
    }
  }

  /** An invoice on an order no other invoice refers to keeps one invoice per order. */
  lemma OneInvoicePerOrder(invoices: seq<Invoice>, inv: Invoice)
    requires forall i, j :: 0 <= i < j < |invoices| ==> invoices[i].salesOrder != invoices[j].salesOrder
    requires forall i :: 0 <= i < |invoices| ==> invoices[i].salesOrder != inv.salesOrder
    ensures forall i, j :: 0 <= i < j < |invoices + [inv]| ==> (invoices + [inv])[i].salesOrder != (invoices + [inv])[j].salesOrder
  {
    var grown := invoices + [inv];
    forall i, j | 0 <= i < j < |grown| ensures grown[i].salesOrder != grown[j].salesOrder {
      assert grown[i] == invoices[i];
      if j < |invoices| {
        assert grown[j] == invoices[j];
      }
    }
  }

  /** The invoice made for order `x` is valid once that order is marked invoiced. */
  lemma InvoiceForValid(orders: seq<SalesOrder>, x: nat, number: string, today: int)
    requires x < |orders|
    ensures InvoiceValid(InvoiceFor(number, x + 1, orders[x], today), orders[x := orders[x].(status := Invoiced)])
  {
  }

  lemma InvoiceAppendValid(orders: seq<SalesOrder>, invoices: seq<Invoice>, inv: Invoice)
    requires forall f :: f in invoices ==> InvoiceValid(f, orders)
    requires InvoiceValid(inv, orders)
    ensures forall f :: f in invoices + [inv] ==> InvoiceValid(f, orders)
  {
  }

  /** The invoice numbers of a grown table are the old ones followed by the new number. */
  lemma InvoiceNumbersAppend(invoices: seq<Invoice>, inv: Invoice)
    requires Numbering.Sequential("INV", InvoiceNumbers(invoices) + [inv.number])
    ensures Numbering.Sequential("INV", InvoiceNumbers(invoices + [inv]))
  {
    assert InvoiceNumbers(invoices + [inv]) == InvoiceNumbers(invoices) + [inv.number] by {
      assert (invoices + [inv])[..|invoices|] == invoices;
    }
  }

  /** A status change leaves the order numbers as they were. */
  lemma OrderNumbersStatus(orders: seq<SalesOrder>, x: nat, s: SalesStatus)
    requires x < |orders|
    ensures OrderNumbers(orders[x := orders[x].(status := s)]) == OrderNumbers(orders)
  {
  }

  /** Invoicing order `x` — which no invoice refers to yet — keeps the sales tables valid
   *  and leaves exactly one invoice on that order. */
  lemma SalesAddInvoice(n: nat, orders: seq<SalesOrder>, invoices: seq<Invoice>, x: nat, number: string, today: int)
    requires SalesValid(n, orders, invoices) && x < |orders|
    requires orders[x].status != Invoiced
    requires number == Numbering.Format("INV", |invoices| + 1)
    ensures SalesValid(n, orders[x := orders[x].(status := Invoiced)], invoices + [InvoiceFor(number, x + 1, orders[x], today)])
  {
    Numbering.PrefixesNoDash();
    Numbering.SequentialNext("INV", InvoiceNumbers(invoices), |invoices|);
    var o := orders[x];
    var changed := orders[x := o.(status := Invoiced)];
    var inv := InvoiceFor(number, x + 1, o, today);
    InvoiceForValid(orders, x, number, today);
    NoInvoiceYet(orders, invoices, x);
    InvoicesAfterInvoicing(orders, invoices, x);
    InvoiceAppendValid(changed, invoices, inv);
    OrdersAfterInvoicing(n, orders, x);
    OneInvoicePerOrder(invoices, inv);
    Numbering.SequentialAppend("INV", InvoiceNumbers(invoices), |invoices|, number);
    InvoiceNumbersAppend(invoices, inv);
    OrderNumbersStatus(orders, x, Invoiced);
  }

  /** Marking an unpaid invoice paid in full keeps the sales tables valid. */
  lemma SalesMarkPaid(n: nat, orders: seq<SalesOrder>, invoices: seq<Invoice>, y: nat)
    requires SalesValid(n, orders, invoices) && y < |invoices|
    ensures SalesValid(n, orders, invoices[y := invoices[y].(status := Paid, amountPaid := invoices[y].total)])
  {
    var changed := invoices[y := invoices[y].(status := Paid, amountPaid := invoices[y].total)];
    forall f | f in changed ensures InvoiceValid(f, orders) {
      var i :| 0 <= i < |changed| && changed[i] == f;
      assert invoices[i] in invoices;
    }
  }

  lemma PurchasingAdd(n: nat, orders: seq<PurchaseOrder>, po: PurchaseOrder)
    requires PurchasingValid(n, orders)
    requires po.number == Numbering.Format("PO", |orders| + 1) && PurchaseOrderValid(po, n)
    ensures PurchasingValid(n, orders + [po])
  {
  }

  lemma PurchasingReplace(n: nat, orders: seq<PurchaseOrder>, x: nat, po: PurchaseOrder)
    requires PurchasingValid(n, orders) && x < |orders|
    requires po.number == orders[x].number && PurchaseOrderValid(po, n)
    ensures PurchasingValid(n, orders[x := po])
  {
    var changed := orders[x := po];
    forall p | p in changed ensures PurchaseOrderValid(p, n) {
      var i :| 0 <= i < |changed| && changed[i] == p;
      if i != x {
        assert orders[i] in orders;
      }
    }
  }
}
