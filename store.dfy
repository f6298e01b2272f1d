/**
 * The ERP store: one object holding every table the request handlers read and
 * write, one method per handler. Each method either fails with an error kind and
 * leaves every table as it was (the handler returns before committing, or the
 * store raises and the transaction is rolled back), or applies the handler's
 * whole change; every method keeps the store's invariant.
 */
module Store {
  import opened Wrappers
  import opened Schema
  import opened Ledger
  import opened Inventory
  import opened Orders
  import opened Hr
  import Money
  import Numbering

  /** `_seed_chart_of_accounts`: seeds only an empty chart. */
  function SeedOf(db: Db): Db {
    if |db.accounts| > 0 then db else db.(accounts := SeedAccounts())
  }

  /** Seeding twice is seeding once. */
  lemma SeedIdempotent(db: Db)
    ensures SeedOf(SeedOf(db)) == SeedOf(db)
    ensures |SeedOf(db).accounts| > 0
  {
    SeedCodesUnique();
  }

  /** The store invariant, over every table at once. */
  ghost predicate DbValid(db: Db) {
    && LedgerValid(db.accounts, db.entries)
    && InventoryValid(db.products, db.movements)
    && SalesValid(|db.products|, db.salesOrders, db.invoices)
    && PurchasingValid(|db.products|, db.purchaseOrders)
    && HrValid(db.employees, db.leaves)
  }

  /** The store after posting entry `x`: its lines applied to the balances, the entry
   *  marked posted. */
  function PostedDb(db: Db, x: nat): Db
    requires x < |db.entries|
  {
    db.(accounts := ApplyLines(db.accounts, db.entries[x].lines),
        entries := db.entries[x := db.entries[x].(posted := true)])
  }

  /** Posting an unposted entry keeps the store valid. */
  lemma PostKeepsValid(db: Db, x: nat)
    requires DbValid(db) && x < |db.entries| && !db.entries[x].posted
    ensures DbValid(PostedDb(db, x))
  {
    LedgerPost(db.accounts, db.entries, x);
  }

  /** Replacing a non-invoiced order by a valid non-invoiced one with the same number
   *  keeps the store valid. */
  lemma ReplaceOrderKeepsValid(db: Db, x: nat, o: SalesOrder)
    requires DbValid(db) && x < |db.salesOrders|
    requires db.salesOrders[x].status != Invoiced && o.status != Invoiced
    requires o.number == db.salesOrders[x].number && SalesOrderValid(o, |db.products|)
    ensures DbValid(db.(salesOrders := db.salesOrders[x := o]))
  {
    SalesReplaceOrder(|db.products|, db.salesOrders, db.invoices, x, o);
  }

  /** The store after receiving purchase order `x`: stock raised and one `in` movement
   *  logged per line, the order marked received. */
  function ReceivedDb(db: Db, x: nat): Db
    requires x < |db.purchaseOrders|
  {
    var po := db.purchaseOrders[x];
    db.(products := ReceiveStock(db.products, po.lines),
        movements := db.movements + ReceiptMovements(po.lines, po.number),
        purchaseOrders := db.purchaseOrders[x := po.(status := Received)])
  }

  /** Receiving a purchase order, whatever its status, keeps the store valid. */
  lemma ReceiveKeepsValid(db: Db, x: nat)
    requires DbValid(db) && x < |db.purchaseOrders|
    ensures DbValid(ReceivedDb(db, x))
  {
    var po := db.purchaseOrders[x];
    assert po in db.purchaseOrders;
    InventoryReceive(db.products, db.movements, po.lines, po.number);
    PurchasingReplace(|db.products|, db.purchaseOrders, x, po.(status := Received));
  }

  /** Appending a valid purchase order under the next number keeps the store valid. */
  lemma AddPurchaseKeepsValid(db: Db, po: PurchaseOrder)
    requires DbValid(db)
    requires po.number == Numbering.Format("PO", |db.purchaseOrders| + 1) && PurchaseOrderValid(po, |db.products|)
    ensures DbValid(db.(purchaseOrders := db.purchaseOrders + [po]))
  {
    PurchasingAdd(|db.products|, db.purchaseOrders, po);
  }

  /** Replacing a purchase order by a valid one with the same number keeps the store valid. */
  lemma ReplacePurchaseKeepsValid(db: Db, x: nat, po: PurchaseOrder)
    requires DbValid(db) && x < |db.purchaseOrders|
    requires po.number == db.purchaseOrders[x].number && PurchaseOrderValid(po, |db.products|)
    ensures DbValid(db.(purchaseOrders := db.purchaseOrders[x := po]))
  {
    PurchasingReplace(|db.products|, db.purchaseOrders, x, po);
  }

  /** The store after invoicing order `x` under `number`. */
  function InvoicedDb(db: Db, x: nat, number: string, today: int): Db
    requires x < |db.salesOrders|
  {
    db.(salesOrders := db.salesOrders[x := db.salesOrders[x].(status := Invoiced)],
        invoices := db.invoices + [InvoiceFor(number, x + 1, db.salesOrders[x], today)])
  }

  /** Invoicing order `x` with the next invoice number keeps the store valid. */
  lemma InvoiceKeepsValid(db: Db, x: nat, number: string, today: int)
    requires DbValid(db) && x < |db.salesOrders|
    requires db.salesOrders[x].status != Invoiced
    requires number == Numbering.Format("INV", |db.invoices| + 1)
    ensures Numbering.NextNumber("INV", InvoiceNumbers(db.invoices)) == Some(number)
    ensures DbValid(InvoicedDb(db, x, number, today))
  {
    Numbering.PrefixesNoDash();
    Numbering.SequentialNext("INV", InvoiceNumbers(db.invoices), |db.invoices|);
    SalesAddInvoice(|db.products|, db.salesOrders, db.invoices, x, number, today);
  }

  class Erp {
    var accounts: seq<Account>
    var entries: seq<JournalEntry>
    var products: seq<Product>
    var movements: seq<StockMovement>
    var salesOrders: seq<SalesOrder>
    var invoices: seq<Invoice>
    var purchaseOrders: seq<PurchaseOrder>
    var employees: seq<Employee>
    var leaves: seq<LeaveRequest>

    /** Every table, as one value. */
    function State(): Db
      reads this
    {
      Db(accounts, entries, products, movements, salesOrders, invoices, purchaseOrders, employees, leaves)
    }

    ghost predicate Valid()
      reads this
    {
      DbValid(State())
    }

    /** A freshly created schema: every table empty. */
    constructor()
      ensures Valid()
      ensures State() == Db([], [], [], [], [], [], [], [], [])
    {
      accounts, entries := [], [];
      products, movements := [], [];
      salesOrders, invoices, purchaseOrders := [], [], [];
      employees, leaves := [], [];
    }

    method SeedChartOfAccounts()
      requires Valid()
      modifies this
      ensures Valid()
      ensures State() == SeedOf(old(State()))
    {
      if |accounts| > 0 {
        return;
      }
      LedgerSeed(entries);
      accounts := SeedAccounts();
    }

    // ---------------------------------------------------------- accounting

    method AccountNew(code: string, name: string, typeText: string) returns (r: Outcome)
      requires Valid()
      modifies this
      ensures Valid()
      ensures code == "" || name == "" ==> r == Err(MissingField)
      ensures code != "" && name != "" && ParseAccountType(typeText).None? ==> r == Err(InvalidType)
      ensures code != "" && name != "" && ParseAccountType(typeText).Some? && CodeTaken(old(accounts), code) ==>
                r == Err(Duplicate)
      ensures code != "" && name != "" && ParseAccountType(typeText).Some? && !CodeTaken(old(accounts), code) ==>
                && r == Ok(|old(accounts)| + 1)
                && State() == old(State()).(accounts := old(accounts) + [Account(code, name, ParseAccountType(typeText).value, None, 0.0, true)])
      ensures r.Err? ==> State() == old(State())
    {
      if code == "" || name == "" {
        return Err(MissingField);
      }
      var kind := ParseAccountType(typeText);
      if kind.None? {
        return Err(InvalidType);
      }
      if CodeTaken(accounts, code) {
        return Err(Duplicate);
      }
      var a := Account(code, name, kind.value, None, 0.0, true);
      LedgerAddAccount(accounts, entries, a);
      accounts := accounts + [a];
      r := Ok(|accounts|);
    }

    method JournalNew(date: Option<int>, reference: string, description: string,
                      ids: seq<Option<int>>, debits: seq<Option<real>>, credits: seq<Option<real>>)
      returns (r: Outcome)
      requires Valid()
      modifies this
      ensures Valid()
      ensures date.None? ==> r == Err(MissingField)
      ensures date.Some? && EntryLines(ids, debits, credits) == [] ==> r == Err(NoLines)
      ensures date.Some? && EntryLines(ids, debits, credits) != [] && !RoundedBalanced(EntryLines(ids, debits, credits)) ==>
                r == Err(Unbalanced)
      ensures date.Some? && EntryLines(ids, debits, credits) != [] && RoundedBalanced(EntryLines(ids, debits, credits))
              && !OnAccounts(EntryLines(ids, debits, credits), |old(accounts)|) ==>
                r == Err(Aborted)
      ensures date.Some? && EntryLines(ids, debits, credits) != [] && RoundedBalanced(EntryLines(ids, debits, credits))
              && OnAccounts(EntryLines(ids, debits, credits), |old(accounts)|) ==>
                && r == Ok(|old(entries)| + 1)
                && State() == old(State()).(entries := old(entries) + [JournalEntry(date.value, reference, description, false, EntryLines(ids, debits, credits))])
      ensures r.Err? ==> State() == old(State())
    {
      if date.None? {
        return Err(MissingField);
      }
      var lines, totalDebit, totalCredit := CollectLines(ids, debits, credits);
      if lines == [] {
        return Err(NoLines);
      }
      if Money.Round2(totalDebit) != Money.Round2(totalCredit) {
        return Err(Unbalanced);
      }
      if !OnAccounts(lines, |accounts|) {
        return Err(Aborted);
      }
      var e := JournalEntry(date.value, reference, description, false, lines);
      LedgerAddEntry(accounts, entries, e);
      entries := entries + [e];
      r := Ok(|entries|);
    }

    method JournalPost(id: int) returns (r: Outcome)
      requires Valid()
      modifies this
      ensures Valid()
      ensures !ValidId(id, |old(entries)|) ==> r == Err(NotFound)
      ensures ValidId(id, |old(entries)|) && old(entries)[id - 1].posted ==> r == Err(AlreadyPosted)
      ensures ValidId(id, |old(entries)|) && !old(entries)[id - 1].posted ==>
                && r == Ok(id)
                && State() == PostedDb(old(State()), id - 1)
                && forall k :: 0 <= k < |accounts| ==>
                     accounts[k] == old(accounts)[k].(balance := old(accounts)[k].balance
                                                      + LinesEffect(old(entries)[id - 1].lines, k + 1, old(accounts)[k].kind))
      ensures r.Err? ==> State() == old(State())
    {
      if !ValidId(id, |entries|) {
        return Err(NotFound);
      }
      if entries[id - 1].posted {
        return Err(AlreadyPosted);
      }
      PostKeepsValid(State(), id - 1);
      ApplyLinesEffect(accounts, entries[id - 1].lines);
      PostEntry(id);
      r := Ok(id);
    }

    /** The success path of `journal_post`: one balance update per line, then the flag. */
    method PostEntry(id: int)
      requires ValidId(id, |entries|)
      modifies this
      ensures State() == PostedDb(old(State()), id - 1)
    {
      var e := entries[id - 1];
      var balances := accounts;
      for i := 0 to |e.lines|
        invariant balances == ApplyLines(accounts, e.lines[..i])
      {
        var l := e.lines[i];
        // the lines are joined with their accounts: one on a missing account changes nothing
        if ValidId(l.account, |balances|) {
          var a := balances[l.account - 1];
          var change := if DebitNormal(a.kind) then l.debit - l.credit else l.credit - l.debit;
          balances := balances[l.account - 1 := a.(balance := a.balance + change)];
        }
        assert e.lines[..i + 1][..i] == e.lines[..i];
      }
      assert e.lines[..|e.lines|] == e.lines;
      accounts := balances;
      entries := entries[id - 1 := e.(posted := true)];
    }

    // ---------------------------------------------------------- products

    method ProductNew(sku: string, name: string, description: string,
                      unitPrice: Option<real>, costPrice: Option<real>, stockQty: Option<real>,
                      reorderLevel: Option<real>, unit: string)
      returns (r: Outcome)
      requires Valid()
      modifies this
      ensures Valid()
      ensures SkuTaken(old(products), sku, 0) ==> r == Err(Duplicate) && State() == old(State())
      ensures !SkuTaken(old(products), sku, 0) ==>
                && r == Ok(|old(products)| + 1)
                && State() == old(State()).(products := old(products) + [NewProduct(sku, name, description, unitPrice, costPrice, stockQty, reorderLevel, unit, true)])
    {
      if SkuTaken(products, sku, 0) {
        return Err(Duplicate);
      }
      var p := NewProduct(sku, name, description, unitPrice, costPrice, stockQty, reorderLevel, unit, true);
      InventoryAddProduct(products, movements, p);
      SalesGrow(|products|, |products| + 1, salesOrders, invoices);
      PurchasingGrow(|products|, |products| + 1, purchaseOrders);
      products := products + [p];
      r := Ok(|products|);
    }

    /** Overwrites every form field, stock level included, without logging a movement. */
    method ProductEdit(id: int, sku: string, name: string, description: string,
                       unitPrice: Option<real>, costPrice: Option<real>, stockQty: Option<real>,
                       reorderLevel: Option<real>, unit: string)
      returns (r: Outcome)
      requires Valid()
      modifies this
      ensures Valid()
      ensures !ValidId(id, |old(products)|) ==> r == Err(NotFound)
      ensures ValidId(id, |old(products)|) && SkuTaken(old(products), sku, id) ==> r == Err(Duplicate)
      ensures ValidId(id, |old(products)|) && !SkuTaken(old(products), sku, id) ==>
                && r == Ok(id)
                && State() == old(State()).(products := old(products)[id - 1 :=
                     NewProduct(sku, name, description, unitPrice, costPrice, stockQty, reorderLevel, unit, old(products)[id - 1].active)])
      ensures r.Err? ==> State() == old(State())
    {
      if !ValidId(id, |products|) {
        return Err(NotFound);
      }
      if SkuTaken(products, sku, id) {
        return Err(Duplicate);
      }
      var p := NewProduct(sku, name, description, unitPrice, costPrice, stockQty, reorderLevel, unit, products[id - 1].active);
      InventoryEditProduct(products, movements, id - 1, p);
      products := products[id - 1 := p];
      r := Ok(id);
    }

    method AdjustStock(id: int, typeText: string, quantity: real, reference: string, notes: string)
      returns (r: Outcome)
      requires Valid()
      modifies this
      ensures Valid()
      ensures !ValidId(id, |old(products)|) ==> r == Err(NotFound)
      ensures ValidId(id, |old(products)|) && quantity <= 0.0 ==> r == Err(InvalidQuantity)
      ensures ValidId(id, |old(products)|) && quantity > 0.0 && ParseMovementType(typeText).None? ==> r == Err(InvalidType)
      ensures ValidId(id, |old(products)|) && quantity > 0.0 && ParseMovementType(typeText).Some? ==>
                var kind := ParseMovementType(typeText).value;
                var c := StockRule(old(products)[id - 1].stockQty, kind, quantity);
                && r == Ok(|old(movements)| + 1)
                && State() == old(State()).(
                     products := old(products)[id - 1 := old(products)[id - 1].(stockQty := c.newQty)],
                     movements := old(movements) + [StockMovement(id, kind, c.recorded, OrNone(reference), OrNone(notes))])
      ensures r.Err? ==> State() == old(State())
    {
      if !ValidId(id, |products|) {
        return Err(NotFound);
      }
      if quantity <= 0.0 {
        return Err(InvalidQuantity);
      }
      var kind := ParseMovementType(typeText);
      if kind.None? {
        return Err(InvalidType);
      }
      var c := StockRule(products[id - 1].stockQty, kind.value, quantity);
      var m := StockMovement(id, kind.value, c.recorded, OrNone(reference), OrNone(notes));
      InventoryAdjust(products, movements, id - 1, c.newQty, m);
      movements := movements + [m];
      products := products[id - 1 := products[id - 1].(stockQty := c.newQty)];
      r := Ok(|movements|);
    }

    // ---------------------------------------------------------- sales

    method SalesNew(customer: Option<int>, orderDate: Option<int>, notes: string,
                    ids: seq<Option<int>>, qtys: seq<Option<real>>, prices: seq<Option<real>>, today: int)
      returns (r: Outcome)
      requires Valid()
      modifies this
      ensures Valid()
      ensures customer.None? ==> r == Err(MissingField)
      ensures customer.Some? && SalesLinesOf(ids, qtys, prices, |old(products)|).None? ==> r == Err(Aborted)
      ensures customer.Some? && SalesLinesOf(ids, qtys, prices, |old(products)|).Some? ==>
                && r == Ok(|old(salesOrders)| + 1)
                && State() == old(State()).(salesOrders := old(salesOrders) + [
                     DraftOrder(Numbering.Format("SO", |old(salesOrders)| + 1), customer.value,
                                if orderDate.Some? then orderDate.value else today, notes,
                                SalesLinesOf(ids, qtys, prices, |old(products)|).value)])
      ensures r.Err? ==> State() == old(State())
    {
      if customer.None? {
        return Err(MissingField);
      }
      Numbering.PrefixesNoDash();
      Numbering.SequentialNext("SO", OrderNumbers(salesOrders), |salesOrders|);
      var number := Numbering.NextNumber("SO", OrderNumbers(salesOrders)).value;
      var lines, subtotal := SaveSalesLines(ids, qtys, prices, |products|);
      if lines.None? {
        return Err(Aborted);
      }
      var date := if orderDate.Some? then orderDate.value else today;
      var totals := SalesTotals(subtotal);
      var o := SalesOrder(number, customer.value, date, Draft, totals.subtotal, totals.tax, totals.total, notes, lines.value);
      assert o == DraftOrder(number, customer.value, date, notes, lines.value);
      SalesAddOrder(|products|, salesOrders, invoices, o);
      salesOrders := salesOrders + [o];
      r := Ok(|salesOrders|);
    }

    /** Replaces the whole line set of a draft order and recomputes its totals. */
    method SalesEdit(id: int, customer: Option<int>, orderDate: Option<int>, notes: string,
                     ids: seq<Option<int>>, qtys: seq<Option<real>>, prices: seq<Option<real>>, today: int)
      returns (r: Outcome)
      requires Valid()
      modifies this
      ensures Valid()
      ensures !ValidId(id, |old(salesOrders)|) ==> r == Err(NotFound)
      ensures ValidId(id, |old(salesOrders)|) && old(salesOrders)[id - 1].status != Draft ==> r == Err(InvalidTransition)
      ensures ValidId(id, |old(salesOrders)|) && old(salesOrders)[id - 1].status == Draft && customer.None? ==>
                r == Err(MissingField)
      ensures ValidId(id, |old(salesOrders)|) && old(salesOrders)[id - 1].status == Draft && customer.Some?
              && SalesLinesOf(ids, qtys, prices, |old(products)|).None? ==>
                r == Err(Aborted)
      ensures ValidId(id, |old(salesOrders)|) && old(salesOrders)[id - 1].status == Draft && customer.Some?
              && SalesLinesOf(ids, qtys, prices, |old(products)|).Some? ==>
                && r == Ok(id)
                && State() == old(State()).(salesOrders := old(salesOrders)[id - 1 :=
                     DraftOrder(old(salesOrders)[id - 1].number, customer.value,
                                if orderDate.Some? then orderDate.value else today, notes,
                                SalesLinesOf(ids, qtys, prices, |old(products)|).value)])
      ensures r.Err? ==> State() == old(State())
    {
      if !ValidId(id, |salesOrders|) {
        return Err(NotFound);
      }
      var current := salesOrders[id - 1];
      if SalesStep(current.status, SalesEvent.SalesEdit).None? {
        return Err(InvalidTransition);
      }
      if customer.None? {
        return Err(MissingField);
      }
      var lines, subtotal := SaveSalesLines(ids, qtys, prices, |products|);
      if lines.None? {
        return Err(Aborted);
      }
      var date := if orderDate.Some? then orderDate.value else today;
      var totals := SalesTotals(subtotal);
      var o := SalesOrder(current.number, customer.value, date, Draft, totals.subtotal, totals.tax, totals.total, notes, lines.value);
      assert o == DraftOrder(current.number, customer.value, date, notes, lines.value);
      ReplaceOrderKeepsValid(State(), id - 1, o);
      SetSalesOrders(salesOrders[id - 1 := o]);
      r := Ok(id);
    }

    /** The status-only handlers `confirm` and `cancel`. */
    method SalesTransition(id: int, ev: SalesEvent) returns (r: Outcome)
      requires Valid()
      requires ev == SalesConfirm || ev == SalesCancel
      modifies this
      ensures Valid()
      ensures !ValidId(id, |old(salesOrders)|) ==> r == Err(NotFound)
      ensures ValidId(id, |old(salesOrders)|) && SalesStep(old(salesOrders)[id - 1].status, ev).None? ==>
                r == Err(InvalidTransition)
      ensures ValidId(id, |old(salesOrders)|) && SalesStep(old(salesOrders)[id - 1].status, ev).Some? ==>
                && r == Ok(id)
                && State() == old(State()).(salesOrders := old(salesOrders)[id - 1 :=
                     old(salesOrders)[id - 1].(status := SalesStep(old(salesOrders)[id - 1].status, ev).value)])
      ensures r.Err? ==> State() == old(State())
    {
      if !ValidId(id, |salesOrders|) {
        return Err(NotFound);
      }
      var current := salesOrders[id - 1];
      var next := SalesStep(current.status, ev);
      if next.None? {
        return Err(InvalidTransition);
      }
      assert current in salesOrders;
      ReplaceOrderKeepsValid(State(), id - 1, current.(status := next.value));
      SetSalesOrders(salesOrders[id - 1 := current.(status := next.value)]);
      r := Ok(id);
    }

    /** Commits a new sales-order table. */
    method SetSalesOrders(orders: seq<SalesOrder>)
      modifies this
      ensures State() == old(State()).(salesOrders := orders)
    {
      salesOrders := orders;
    }

    method CreateInvoice(id: int, today: int) returns (r: Outcome)
      requires Valid()
      modifies this
      ensures Valid()
      ensures !ValidId(id, |old(salesOrders)|) ==> r == Err(NotFound)
      ensures ValidId(id, |old(salesOrders)|) && old(salesOrders)[id - 1].status != Confirmed && old(salesOrders)[id - 1].status != Shipped ==>
                r == Err(InvalidTransition)
      ensures ValidId(id, |old(salesOrders)|) && (old(salesOrders)[id - 1].status == Confirmed || old(salesOrders)[id - 1].status == Shipped) ==>
                && r == Ok(|old(invoices)| + 1)
                && State() == InvoicedDb(old(State()), id - 1, Numbering.Format("INV", |old(invoices)| + 1), today)
      ensures r.Err? ==> State() == old(State())
    {
      if !ValidId(id, |salesOrders|) {
        return Err(NotFound);
      }
      var o := salesOrders[id - 1];
      if SalesStep(o.status, SalesInvoice).None? {
        return Err(InvalidTransition);
      }
      InvoiceKeepsValid(State(), id - 1, Numbering.Format("INV", |invoices| + 1), today);
      r := AddInvoice(id, today);
    }

    /** The success path of `create_invoice`. */
    method AddInvoice(id: int, today: int) returns (r: Outcome)
      requires ValidId(id, |salesOrders|)
      requires Numbering.NextNumber("INV", InvoiceNumbers(invoices)) == Some(Numbering.Format("INV", |invoices| + 1))
      modifies this
      ensures r == Ok(|old(invoices)| + 1)
      ensures State() == InvoicedDb(old(State()), id - 1, Numbering.Format("INV", |old(invoices)| + 1), today)
    {
      var o := salesOrders[id - 1];
      var number := Numbering.NextNumber("INV", InvoiceNumbers(invoices)).value;
      var lines := CopyInvoiceLines(o.lines);
      ghost var post := InvoicedDb(State(), id - 1, number, today);
      invoices, salesOrders := invoices + [Invoice(number, Some(id), o.customer, today, None, InvDraft,
                                            o.subtotal, o.tax, o.total, 0.0, o.notes, lines)],
                                salesOrders[id - 1 := o.(status := Invoiced)];
      assert State() == post;
      r := Ok(|invoices|);
    }

    method MarkPaid(id: int) returns (r: Outcome)
      requires Valid()
      modifies this
      ensures Valid()
      ensures !ValidId(id, |old(invoices)|) ==> r == Err(NotFound)
      ensures ValidId(id, |old(invoices)|) && old(invoices)[id - 1].status == Paid ==> r == Err(AlreadyPaid)
      ensures ValidId(id, |old(invoices)|) && old(invoices)[id - 1].status != Paid ==>
                && r == Ok(id)
                && State() == old(State()).(invoices := old(invoices)[id - 1 :=
                     old(invoices)[id - 1].(status := Paid, amountPaid := old(invoices)[id - 1].total)])
      ensures r.Err? ==> State() == old(State())
    {
      if !ValidId(id, |invoices|) {
        return Err(NotFound);
      }
      var inv := invoices[id - 1];
      if inv.status == Paid {
        return Err(AlreadyPaid);
      }
      SalesMarkPaid(|products|, salesOrders, invoices, id - 1);
      invoices := invoices[id - 1 := inv.(status := Paid, amountPaid := inv.total)];
      r := Ok(id);
    }

    // ---------------------------------------------------------- purchasing

    method PurchaseNew(supplier: Option<int>, orderDate: Option<int>, expectedDate: Option<int>, notes: string,
                       ids: seq<Option<int>>, qtys: seq<Option<real>>, prices: seq<Option<real>>)
      returns (r: Outcome)
      requires Valid()
      modifies this
      ensures Valid()
      ensures supplier.None? || orderDate.None? ==> r == Err(MissingField)
      ensures supplier.Some? && orderDate.Some? && PurchaseLinesOf(ids, qtys, prices, |old(products)|).None? ==>
                r == Err(Aborted)
      ensures supplier.Some? && orderDate.Some? && PurchaseLinesOf(ids, qtys, prices, |old(products)|).Some? ==>
                && r == Ok(|old(purchaseOrders)| + 1)
                && State() == old(State()).(purchaseOrders := old(purchaseOrders) + [
                     DraftPurchase(Numbering.Format("PO", |old(purchaseOrders)| + 1), supplier.value, orderDate.value,
                                   expectedDate, notes, PurchaseLinesOf(ids, qtys, prices, |old(products)|).value)])
      ensures r.Err? ==> State() == old(State())
    {
      if supplier.None? || orderDate.None? {
        return Err(MissingField);
      }
      Numbering.PrefixesNoDash();
      Numbering.SequentialNext("PO", PurchaseNumbers(purchaseOrders), |purchaseOrders|);
      var number := Numbering.NextNumber("PO", PurchaseNumbers(purchaseOrders)).value;
      var lines, subtotal := SavePurchaseLines(ids, qtys, prices, |products|);
      if lines.None? {
        return Err(Aborted);
      }
      var totals := PurchaseTotals(subtotal);
      var po := PurchaseOrder(number, supplier.value, orderDate.value, expectedDate, PoDraft,
                              totals.subtotal, totals.tax, totals.total, notes, lines.value);
      assert po == DraftPurchase(number, supplier.value, orderDate.value, expectedDate, notes, lines.value);
      AddPurchaseKeepsValid(State(), po);
      SetPurchaseOrders(purchaseOrders + [po]);
      r := Ok(|purchaseOrders|);
    }

    method PurchaseEdit(id: int, supplier: Option<int>, orderDate: Option<int>, expectedDate: Option<int>, notes: string,
                        ids: seq<Option<int>>, qtys: seq<Option<real>>, prices: seq<Option<real>>)
      returns (r: Outcome)
      requires Valid()
      modifies this
      ensures Valid()
      ensures !ValidId(id, |old(purchaseOrders)|) ==> r == Err(NotFound)
      ensures ValidId(id, |old(purchaseOrders)|) && old(purchaseOrders)[id - 1].status != PoDraft ==> r == Err(InvalidTransition)
      ensures ValidId(id, |old(purchaseOrders)|) && old(purchaseOrders)[id - 1].status == PoDraft
              && (supplier.None? || orderDate.None?) ==>
                r == Err(MissingField)
      ensures ValidId(id, |old(purchaseOrders)|) && old(purchaseOrders)[id - 1].status == PoDraft
              && supplier.Some? && orderDate.Some? && PurchaseLinesOf(ids, qtys, prices, |old(products)|).None? ==>
                r == Err(Aborted)
      ensures ValidId(id, |old(purchaseOrders)|) && old(purchaseOrders)[id - 1].status == PoDraft
              && supplier.Some? && orderDate.Some? && PurchaseLinesOf(ids, qtys, prices, |old(products)|).Some? ==>
                && r == Ok(id)
                && State() == old(State()).(purchaseOrders := old(purchaseOrders)[id - 1 :=
                     DraftPurchase(old(purchaseOrders)[id - 1].number, supplier.value, orderDate.value, expectedDate, notes,
                                   PurchaseLinesOf(ids, qtys, prices, |old(products)|).value)])
      ensures r.Err? ==> State() == old(State())
    {
      if !ValidId(id, |purchaseOrders|) {
        return Err(NotFound);
      }
      var current := purchaseOrders[id - 1];
      if PurchaseStep(current.status, PurchaseEvent.PurchaseEdit).None? {
        return Err(InvalidTransition);
      }
      if supplier.None? || orderDate.None? {
        return Err(MissingField);
      }
      var lines, subtotal := SavePurchaseLines(ids, qtys, prices, |products|);
      if lines.None? {
        return Err(Aborted);
      }
      var totals := PurchaseTotals(subtotal);
      var po := PurchaseOrder(current.number, supplier.value, orderDate.value, expectedDate, PoDraft,
                              totals.subtotal, totals.tax, totals.total, notes, lines.value);
      assert po == DraftPurchase(current.number, supplier.value, orderDate.value, expectedDate, notes, lines.value);
      ReplacePurchaseKeepsValid(State(), id - 1, po);
      SetPurchaseOrders(purchaseOrders[id - 1 := po]);
      r := Ok(id);
    }

    /** The status-only handlers `confirm` and `cancel`. */
    method PurchaseTransition(id: int, ev: PurchaseEvent) returns (r: Outcome)
      requires Valid()
      requires ev == PurchaseConfirm || ev == PurchaseCancel
      modifies this
      ensures Valid()
      ensures !ValidId(id, |old(purchaseOrders)|) ==> r == Err(NotFound)
      ensures ValidId(id, |old(purchaseOrders)|) && PurchaseStep(old(purchaseOrders)[id - 1].status, ev).None? ==>
                r == Err(InvalidTransition)
      ensures ValidId(id, |old(purchaseOrders)|) && PurchaseStep(old(purchaseOrders)[id - 1].status, ev).Some? ==>
                && r == Ok(id)
                && State() == old(State()).(purchaseOrders := old(purchaseOrders)[id - 1 :=
                     old(purchaseOrders)[id - 1].(status := PurchaseStep(old(purchaseOrders)[id - 1].status, ev).value)])
      ensures r.Err? ==> State() == old(State())
    {
      if !ValidId(id, |purchaseOrders|) {
        return Err(NotFound);
      }
      var current := purchaseOrders[id - 1];
      var next := PurchaseStep(current.status, ev);
      if next.None? {
        return Err(InvalidTransition);
      }
      assert current in purchaseOrders;
      ReplacePurchaseKeepsValid(State(), id - 1, current.(status := next.value));
      SetPurchaseOrders(purchaseOrders[id - 1 := current.(status := next.value)]);
      r := Ok(id);
    }

    /** Commits a new purchase-order table. */
    method SetPurchaseOrders(orders: seq<PurchaseOrder>)
      modifies this
      ensures State() == old(State()).(purchaseOrders := orders)
    {
      purchaseOrders := orders;
    }

    /** Books a confirmed order's lines into stock, one `in` movement per line. */
    method Receive(id: int) returns (r: Outcome)
      requires Valid()
      modifies this
      ensures Valid()
      ensures !ValidId(id, |old(purchaseOrders)|) ==> r == Err(NotFound)
      ensures ValidId(id, |old(purchaseOrders)|) && old(purchaseOrders)[id - 1].status != PoConfirmed ==>
                r == Err(InvalidTransition)
      ensures ValidId(id, |old(purchaseOrders)|) && old(purchaseOrders)[id - 1].status == PoConfirmed ==>
                var po := old(purchaseOrders)[id - 1];
                && r == Ok(id)
                && State() == ReceivedDb(old(State()), id - 1)
                && forall k :: 0 <= k < |products| ==>
                     products[k] == old(products)[k].(stockQty := old(products)[k].stockQty + ReceivedQty(po.lines, k + 1))
      ensures r.Err? ==> State() == old(State())
    {
      if !ValidId(id, |purchaseOrders|) {
        return Err(NotFound);
      }
      if PurchaseStep(purchaseOrders[id - 1].status, PurchaseReceive).None? {
        return Err(InvalidTransition);
      }
      ReceiveKeepsValid(State(), id - 1);
      ReceiveStockEffect(products, purchaseOrders[id - 1].lines);
      BookOrder(id);
      r := Ok(id);
    }

    /** The success path of `receive`: the stock and movement updates, then the status. */
    method BookOrder(id: int)
      requires ValidId(id, |purchaseOrders|)
      modifies this
      ensures State() == ReceivedDb(old(State()), id - 1)
    {
      var po := purchaseOrders[id - 1];
      var stock, log := BookReceipt(products, movements, po.lines, po.number);
      products, movements := stock, log;
      purchaseOrders := purchaseOrders[id - 1 := po.(status := Received)];
    }

    // ---------------------------------------------------------- human resources

    method EmployeeNew(firstName: string, lastName: string, email: string, phone: string,
                       department: Option<int>, jobTitle: string, hireDate: Option<int>, salary: Option<real>)
      returns (r: Outcome)
      requires Valid()
      modifies this
      ensures Valid()
      ensures firstName == "" || lastName == "" ==> r == Err(MissingField) && State() == old(State())
      ensures firstName != "" && lastName != "" ==>
                && r == Ok(|old(employees)| + 1)
                && State() == old(State()).(employees := old(employees) + [
                     Employee(Numbering.Format("EMP", |old(employees)| + 1), firstName, lastName, email, phone,
                              department, jobTitle, hireDate, Money.Amount(salary), true)])
    {
      if firstName == "" || lastName == "" {
        return Err(MissingField);
      }
      Numbering.PrefixesNoDash();
      Numbering.SequentialNext("EMP", EmployeeNumbers(employees), |employees|);
      var number := Numbering.NextNumber("EMP", EmployeeNumbers(employees)).value;
      var e := Employee(number, firstName, lastName, email, phone, department, jobTitle, hireDate, Money.Amount(salary), true);
      HrAddEmployee(employees, leaves, e);
      employees := employees + [e];
      r := Ok(|employees|);
    }

    method EmployeeEdit(id: int, firstName: string, lastName: string, email: string, phone: string,
                        department: Option<int>, jobTitle: string, hireDate: Option<int>, salary: Option<real>)
      returns (r: Outcome)
      requires Valid()
      modifies this
      ensures Valid()
      ensures !ValidId(id, |old(employees)|) ==> r == Err(NotFound)
      ensures ValidId(id, |old(employees)|) && (firstName == "" || lastName == "") ==> r == Err(MissingField)
      ensures ValidId(id, |old(employees)|) && firstName != "" && lastName != "" ==>
                var e := old(employees)[id - 1];
                && r == Ok(id)
                && State() == old(State()).(employees := old(employees)[id - 1 :=
                     Employee(e.number, firstName, lastName, email, phone, department, jobTitle, hireDate, Money.Amount(salary), e.active)])
      ensures r.Err? ==> State() == old(State())
    {
      if !ValidId(id, |employees|) {
        return Err(NotFound);
      }
      if firstName == "" || lastName == "" {
        return Err(MissingField);
      }
      var e := employees[id - 1];
      var edited := Employee(e.number, firstName, lastName, email, phone, department, jobTitle, hireDate, Money.Amount(salary), e.active);
      HrReplaceEmployee(employees, leaves, id - 1, edited);
      employees := employees[id - 1 := edited];
      r := Ok(id);
    }

    /** Clears the active flag; an unknown id is not an error. */
    method Deactivate(id: nat) returns (r: Outcome)
      requires Valid()
      modifies this
      ensures Valid()
      ensures r == Ok(id)
      ensures State() == old(State()).(employees := Deactivated(old(employees), id))
    {
      if ValidId(id, |employees|) {
        var e := employees[id - 1];
        assert e in employees;
        HrReplaceEmployee(employees, leaves, id - 1, e.(active := false));
        employees := employees[id - 1 := e.(active := false)];
      }
      r := Ok(id);
    }

    method LeaveNew(employee: nat, typeText: string, start: Option<int>, end: Option<int>, reason: string)
      returns (r: Outcome)
      requires Valid()
      modifies this
      ensures Valid()
      ensures !ValidId(employee, |old(employees)|) ==> r == Err(NotFound)
      ensures ValidId(employee, |old(employees)|) && (typeText == "" || start.None? || end.None?) ==> r == Err(MissingField)
      ensures ValidId(employee, |old(employees)|) && typeText != "" && start.Some? && end.Some?
              && ParseLeaveType(typeText).None? ==>
                r == Err(InvalidType)
      ensures ValidId(employee, |old(employees)|) && typeText != "" && start.Some? && end.Some?
              && ParseLeaveType(typeText).Some? ==>
                && r == Ok(|old(leaves)| + 1)
                && State() == old(State()).(leaves := old(leaves) + [
                     LeaveRequest(employee, ParseLeaveType(typeText).value, start.value, end.value, Pending, OrNone(reason))])
      ensures r.Err? ==> State() == old(State())
    {
      if !ValidId(employee, |employees|) {
        return Err(NotFound);
      }
      if typeText == "" || start.None? || end.None? {
        return Err(MissingField);
      }
      var kind := ParseLeaveType(typeText);
      if kind.None? {
        return Err(InvalidType);
      }
      var l := LeaveRequest(employee, kind.value, start.value, end.value, Pending, OrNone(reason));
      HrAddLeave(employees, leaves, l);
      leaves := leaves + [l];
      r := Ok(|leaves|);
    }

    /** `leave_approve` (Approved) and `leave_reject` (Rejected): any current status is overwritten. */
    method LeaveDecide(id: int, decision: LeaveStatus) returns (r: Outcome)
      requires Valid()
      requires decision == Approved || decision == Rejected
      modifies this
      ensures Valid()
      ensures !ValidId(id, |old(leaves)|) ==> r == Err(NotFound) && State() == old(State())
      ensures ValidId(id, |old(leaves)|) ==>
                && r == Ok(id)
                && State() == old(State()).(leaves := old(leaves)[id - 1 := old(leaves)[id - 1].(status := decision)])
    {
      if !ValidId(id, |leaves|) {
        return Err(NotFound);
      }
      HrSetLeave(employees, leaves, id - 1, decision);
      leaves := leaves[id - 1 := leaves[id - 1].(status := decision)];
      r := Ok(id);
    }
  }
}
